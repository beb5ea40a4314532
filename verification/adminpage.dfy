/**
 The barber's admin page: a login gate on a stored token, the choice of a barber, the
 day's appointments loaded from the server and shown sorted by start time, and status
 updates (confirm, cancel). A 401 from the server logs the user out.
*/
module AdminPage {
  import opened Wrappers
  import opened Text
  import opened Http
  import opened AgendaVisual

  /** A barber as the admin page lists it. */
  datatype Barbeiro = Barbeiro(id: string, nome: string)

  /** The page state, with the two browser-storage entries it keeps. */
  datatype Admin = Admin(
    token: string,
    barbeiroId: string,
    data: string,
    barbeiros: seq<Barbeiro>,
    items: seq<Agendamento>,
    erro: string,
    storedToken: Option<string>,
    storedBarbeiro: Option<string>)

  /** How the agenda request of `carregar` ended: rejected with an error message, or
      answered with a status and the members of the body the page reads. A 401 is checked
      before the body is read, so it is `Replied` whatever its body. Any other answer is
      `Rejected` when its body is not JSON, or when it is 2xx and its body is JSON `null`
      (reading `agendamentos` from it throws); the message is that of the thrown error. A
      network failure is `Rejected` too. */
  datatype Reply =
    | Rejected(message: string)
    | Replied(status: int, mensagem: Option<Json>, agendamentos: Option<seq<Agendamento>>)

  /** The page as it opens, from the stored entries and today's date. */
  function Abrir(storedToken: Option<string>, storedBarbeiro: Option<string>, today: string): (s: Admin)
    ensures s.token == storedToken.ValueOr("") && s.barbeiroId == storedBarbeiro.ValueOr("")
    ensures s.items == [] && s.data == today
  {
    Admin(storedToken.ValueOr(""), storedBarbeiro.ValueOr(""), today, [], [], "", storedToken, storedBarbeiro)
  }

  // ---------------------------------------------------------------------------
  // Login gate

  /** `login`: the token is kept in the page and in storage; a non-empty one opens the
      panel, and nothing else on the page changes. */
  function Login(s: Admin, t: string): (r: Admin)
    ensures r.token == t && r.storedToken == Some(t)
    ensures Screen(r).Painel? <==> t != []
    ensures Screen(r).Painel? ==> Screen(r).rows == Render(Lista(s.items))
    ensures r.barbeiroId == s.barbeiroId && r.items == s.items && r.storedBarbeiro == s.storedBarbeiro
    ensures r == s.(token := r.token, storedToken := r.storedToken)
  {
    s.(token := t, storedToken := Some(t))
  }

  /** `logout`: forgets the token and the barber, in the page and in storage, and drops
      the loaded appointments. */
  function Logout(s: Admin): (r: Admin)
    ensures r.token == [] && r.barbeiroId == [] && r.items == []
    ensures r.storedToken.None? && r.storedBarbeiro.None?
    ensures r == s.(token := r.token, barbeiroId := r.barbeiroId, items := r.items,
                    storedToken := r.storedToken, storedBarbeiro := r.storedBarbeiro)
  {
    s.(token := "", barbeiroId := "", items := [], storedToken := None, storedBarbeiro := None)
  }

  /** A token survives a reload of the page; a logout survives it too. */
  lemma StorageRoundTrip(s: Admin, t: string, today: string)
    ensures Abrir(Login(s, t).storedToken, Login(s, t).storedBarbeiro, today).token == t
    ensures var o := Logout(s); Abrir(o.storedToken, o.storedBarbeiro, today).token == []
    ensures var o := Logout(s); Abrir(o.storedToken, o.storedBarbeiro, today).barbeiroId == []
  {
  }

  datatype Tela = LoginForm | Painel(rows: seq<Row>)

  /** What the page shows: the login form without a token, otherwise the day's agenda of
      the sorted list. */
  function Screen(s: Admin): (t: Tela)
    ensures t.LoginForm? <==> s.token == []
    ensures t.Painel? ==> t.rows == Render(Lista(s.items))
  {
    if s.token == [] then LoginForm else Painel(Render(Lista(s.items)))
  }

  // ---------------------------------------------------------------------------
  // Barbers

  /** The barber chosen in the select: remembered in storage, and the list of the
      previous barber is cleared. */
  function SelectBarbeiro(s: Admin, id: string): (r: Admin)
    ensures r.barbeiroId == id && r.items == [] && r.storedBarbeiro == Some(id)
    ensures r == s.(barbeiroId := r.barbeiroId, items := r.items, storedBarbeiro := r.storedBarbeiro)
  {
    s.(barbeiroId := id, items := [], storedBarbeiro := Some(id))
  }

  /** A chosen barber survives a reload of the page, and with a token the panel shows the
      empty agenda until the new barber's list is loaded. */
  lemma SelectBarbeiroThenReload(s: Admin, id: string, today: string, i: int)
    requires 0 <= i < 18
    ensures var r := SelectBarbeiro(s, id);
            Abrir(r.storedToken, r.storedBarbeiro, today).barbeiroId == id
    ensures var r := SelectBarbeiro(s, id);
            Abrir(r.storedToken, r.storedBarbeiro, today).token == Abrir(s.storedToken, s.storedBarbeiro, today).token
    ensures s.token != [] ==> Screen(SelectBarbeiro(s, id)).Painel?
    ensures s.token != [] ==> Screen(SelectBarbeiro(s, id)).rows[i].Free?
  {
    SlotFreeIff(Lista([]), i);
  }

  /** How the barber-list request ended: rejected (a network failure, a body that is not
      JSON, or a `null` body, from which `barbeiros` cannot be read), or a body with or
      without a `barbeiros` member. The page reads no status here. */
  datatype BarbeirosReply = BarbeirosRejected | BarbeirosBody(barbeiros: Option<seq<Barbeiro>>)

  /** The effect that loads the barbers once a token is known. */
  function LoadBarbeiros(s: Admin, reply: BarbeirosReply): (r: Admin)
    ensures s.token == [] ==> r == s
    ensures s.token != [] && reply.BarbeirosRejected? ==> r == s.(erro := "Erro ao carregar barbeiros")
    ensures s.token != [] && reply.BarbeirosBody? ==> r == s.(barbeiros := reply.barbeiros.ValueOr([]))
  {
    if s.token == [] then s
    else match reply
      case BarbeirosRejected => s.(erro := "Erro ao carregar barbeiros")
      case BarbeirosBody(bs) => s.(barbeiros := bs.ValueOr([]))
  }

  // ---------------------------------------------------------------------------
  // Loading the agenda

  /** `carregar` with the outcome of its request. */
  function Carregar(s: Admin, reply: Reply): (r: Admin)
    ensures s.barbeiroId == [] ==> r == s
    ensures s.barbeiroId != [] && reply.Replied? && reply.status == 401
            ==> r == Logout(s.(erro := ""))
    ensures s.barbeiroId != [] && reply.Replied? && Ok(reply.status)
            ==> r == s.(erro := "", items := reply.agendamentos.ValueOr([]))
    ensures s.barbeiroId != [] && !(reply.Replied? && (reply.status == 401 || Ok(reply.status)))
            ==> r == s.(erro := r.erro, items := []) && r.erro != []
  {
    if s.barbeiroId == [] then s
    else
      var s' := s.(erro := "");
      match reply
      case Rejected(m) => s'.(erro := OrElse(m, "Erro"), items := [])
      case Replied(status, mensagem, ags) =>
        if status == 401 then Logout(s')
        else if !Ok(status) then s'.(erro := OrElse(ErrorMessage(mensagem), "Erro"), items := [])
        else s'.(items := ags.ValueOr([]))
  }

  /** The error shown for a refused load: the server's `mensagem`, or "Erro" without one. */
  lemma LoadErrorMessage(s: Admin, status: int, m: string, ags: Option<seq<Agendamento>>)
    requires s.barbeiroId != [] && !Ok(status) && status != 401
    ensures m != [] ==> Carregar(s, Replied(status, Some(JString(m)), ags)).erro == m
    ensures Carregar(s, Replied(status, None, ags)).erro == "Erro"
  {
  }

  /** A 401 while loading leads back to the login form. */
  lemma UnauthorizedLoadShowsLogin(s: Admin, mensagem: Option<Json>, ags: Option<seq<Agendamento>>)
    requires s.barbeiroId != []
    ensures Screen(Carregar(s, Replied(401, mensagem, ags))).LoginForm?
  {
  }

  // ---------------------------------------------------------------------------
  // Status updates

  datatype Acao = Confirmar | Cancelar

  /** The status each button of the agenda asks for. */
  function StatusDe(a: Acao): (st: Status)
    ensures st != Pendente
    ensures a.Confirmar? <==> st == Confirmado
    ensures a.Cancelar? <==> st == Cancelado
  {
    match a
    case Confirmar => Confirmado
    case Cancelar => Cancelado
  }

  /** `prev.map(a => a.id === id ? { ...a, status } : a)`. */
  function SetStatus(items: seq<Agendamento>, id: int, st: Status): (r: seq<Agendamento>)
    ensures |r| == |items|
    ensures forall i :: 0 <= i < |r| && items[i].id == id ==> r[i] == items[i].(status := st)
    ensures forall i :: 0 <= i < |r| && items[i].id != id ==> r[i] == items[i]
  {
    seq(|items|, i requires 0 <= i < |items| =>
      if items[i].id == id then items[i].(status := st) else items[i])
  }

  /** Setting a status twice is setting it once. */
  lemma SetStatusIdempotent(items: seq<Agendamento>, id: int, st: Status)
    ensures SetStatus(SetStatus(items, id, st), id, st) == SetStatus(items, id, st)
  {
  }

  /** An update leaves every slot of the agenda as free or as busy as it was. */
  lemma SetStatusKeepsFreeSlots(items: seq<Agendamento>, id: int, st: Status, i: int)
    requires 0 <= i < 18
    ensures Render(SetStatus(items, id, st))[i].Free? <==> Render(items)[i].Free?
  {
    var r := SetStatus(items, id, st);
    SlotFreeIff(items, i);
    SlotFreeIff(r, i);
    assert forall j :: 0 <= j < |r| ==> Key(r[j]) == Key(items[j]);
  }

  /** Sorting does not change which slots of the agenda are free. */
  lemma ListaKeepsFreeSlots(items: seq<Agendamento>, i: int)
    requires 0 <= i < 18
    ensures Render(Lista(items))[i].Free? <==> Render(items)[i].Free?
  {
    var l := Lista(items);
    SlotFreeIff(items, i);
    SlotFreeIff(l, i);
    KeyPresentInPermutation(items, l, GerarSlots()[i]);
    KeyPresentInPermutation(l, items, GerarSlots()[i]);
  }

  lemma KeyPresentInPermutation(a: seq<Agendamento>, b: seq<Agendamento>, k: string)
    requires multiset(a) == multiset(b)
    ensures (exists j :: 0 <= j < |a| && Key(a[j]) == k) ==> exists j :: 0 <= j < |b| && Key(b[j]) == k
  {
    if exists j :: 0 <= j < |a| && Key(a[j]) == k {
      var j :| 0 <= j < |a| && Key(a[j]) == k;
      assert a[j] in multiset(b);
      var m :| 0 <= m < |b| && b[m] == a[j];
    }
  }

  /** A successful status update leaves every slot of the shown agenda free or busy as
      it was. */
  lemma UpdateKeepsAgendaShape(s: Admin, id: int, st: Status, status: int, i: int)
    requires s.token != [] && Ok(status) && 0 <= i < 18
    ensures var r := AtualizarStatus(s, id, st, PatchAnswered(status)).admin;
            Screen(r).Painel? && (Screen(r).rows[i].Free? <==> Screen(s).rows[i].Free?)
  {
    var u := SetStatus(s.items, id, st);
    ListaKeepsFreeSlots(u, i);
    ListaKeepsFreeSlots(s.items, i);
    SetStatusKeepsFreeSlots(s.items, id, st, i);
  }

  datatype Atualizado = Atualizado(admin: Admin, alerta: bool)

  /** How the status-update request ended. Its body is never read, so only the status
      matters: a network failure, or an answer with its status. */
  datatype Patch = PatchFailed | PatchAnswered(status: int)

  /** `atualizarStatus(id, st)` with the outcome of its request; `alerta` says whether the
      "Erro ao atualizar status" alert is raised. */
  function AtualizarStatus(s: Admin, id: int, st: Status, reply: Patch): (r: Atualizado)
    ensures reply.PatchAnswered? && reply.status == 401 ==> r == Atualizado(Logout(s), false)
    ensures reply.PatchAnswered? && Ok(reply.status)
            ==> r == Atualizado(s.(items := SetStatus(s.items, id, st)), false)
    ensures !(reply.PatchAnswered? && (reply.status == 401 || Ok(reply.status)))
            ==> r == Atualizado(s, true)
  {
    match reply
    case PatchFailed => Atualizado(s, true)
    case PatchAnswered(status) =>
      if status == 401 then Atualizado(Logout(s), false)
      else if !Ok(status) then Atualizado(s, true)
      else Atualizado(s.(items := SetStatus(s.items, id, st)), false)
  }

  // ---------------------------------------------------------------------------
  // The sorted list

  /** The comparator as the page writes it: `a.inicio > b.inicio ? 1 : -1`. */
  function CompareAsWritten(a: Agendamento, b: Agendamento): (c: int)
    ensures c == 1 <==> StrLt(b.inicio, a.inicio)
    ensures c == 1 || c == -1
  {
    if StrLt(b.inicio, a.inicio) then 1 else -1
  }

  /** Two appointments with the same start each compare as smaller than the other, so
      the comparator is not consistent and the order of such appointments is left to the
      JavaScript engine. */
  lemma CompareAsWrittenTies(a: Agendamento, b: Agendamento)
    requires a.inicio == b.inicio
    ensures CompareAsWritten(a, b) < 0 && CompareAsWritten(b, a) < 0
  {
    StrLtIrreflexive(a.inicio);
  }

  /** A consistent comparator on the start time: negative, zero or positive as `a` starts
      before, with, or after `b`. */
  function CompareInicio(a: Agendamento, b: Agendamento): (c: int)
    ensures c < 0 <==> StrLt(a.inicio, b.inicio)
    ensures c == 0 <==> a.inicio == b.inicio
    ensures c > 0 <==> StrLt(b.inicio, a.inicio)
  {
    StrLtTrichotomy(a.inicio, b.inicio);
    StrLtIrreflexive(a.inicio);
    if StrLt(a.inicio, b.inicio) then
      StrLtAsymmetric(a.inicio, b.inicio);
      -1
    else if StrLt(b.inicio, a.inicio) then 1
    else 0
  }

  /** The consistent comparator is antisymmetric and transitive. */
  lemma CompareInicioConsistent(a: Agendamento, b: Agendamento, c: Agendamento)
    ensures CompareInicio(a, b) < 0 <==> CompareInicio(b, a) > 0
    ensures CompareInicio(a, b) == 0 <==> CompareInicio(b, a) == 0
    ensures CompareInicio(a, b) < 0 && CompareInicio(b, c) < 0 ==> CompareInicio(a, c) < 0
  {
    if CompareInicio(a, b) < 0 && CompareInicio(b, c) < 0 {
      StrLtTransitive(a.inicio, b.inicio, c.inicio);
    }
  }

  /** Non-decreasing by start time. */
  predicate Sorted(s: seq<Agendamento>) {
    forall i, j :: 0 <= i < j < |s| ==> StrLe(s[i].inicio, s[j].inicio)
  }

  /** The appointments of `s` that start at `t`, in order. */
  function StartingAt(s: seq<Agendamento>, t: string): seq<Agendamento> {
    if s == [] then []
    else StartingAt(s[..|s| - 1], t) + Only(s[|s| - 1], t)
  }

  /** `x` placed into the sorted `s` after every appointment that does not start later. */
  function Insert(x: Agendamento, s: seq<Agendamento>): (r: seq<Agendamento>)
    requires Sorted(s)
    ensures multiset(r) == multiset(s) + multiset{x}
    ensures Sorted(r)
  {
    if s == [] then [x]
    else if CompareInicio(x, s[0]) < 0 then
      InsertFront(x, s);
      [x] + s
    else
      var t := Insert(x, s[1..]);
      InsertBehind(s[0], x, s[1..], t);
      assert s == [s[0]] + s[1..];
      [s[0]] + t
  }

  lemma InsertFront(x: Agendamento, s: seq<Agendamento>)
    requires Sorted(s) && s != [] && StrLt(x.inicio, s[0].inicio)
    ensures Sorted([x] + s)
  {
    forall j | 0 <= j < |s|
      ensures StrLe(x.inicio, s[j].inicio)
    {
      StrLtAsymmetric(x.inicio, s[0].inicio);
      if j > 0 {
        StrLeTransitive(x.inicio, s[0].inicio, s[j].inicio);
      }
    }
    assert forall j :: 1 <= j < |[x] + s| ==> ([x] + s)[j] == s[j - 1];
  }

  lemma InsertBehind(y: Agendamento, x: Agendamento, s: seq<Agendamento>, t: seq<Agendamento>)
    requires Sorted([y] + s) && StrLe(y.inicio, x.inicio)
    requires Sorted(t) && multiset(t) == multiset(s) + multiset{x}
    ensures Sorted([y] + t)
  {
    forall j | 0 <= j < |t|
      ensures StrLe(y.inicio, t[j].inicio)
    {
      assert t[j] in multiset(t);
      if t[j] != x {
        assert t[j] in multiset(s);
        var k :| 0 <= k < |s| && s[k] == t[j];
        assert ([y] + s)[0] == y && ([y] + s)[k + 1] == s[k];
      }
    }
    assert forall j :: 1 <= j < |[y] + t| ==> ([y] + t)[j] == t[j - 1];
  }

  /** `lista`: the appointments sorted by start time with the consistent comparator;
      appointments with the same start keep their order. */
  function Lista(items: seq<Agendamento>): (r: seq<Agendamento>)
    ensures multiset(r) == multiset(items)
    ensures Sorted(r)
  {
    if items == [] then []
    else
      var n := |items| - 1;
      assert items == items[..n] + [items[n]];
      Insert(items[n], Lista(items[..n]))
  }

  /** Inserting keeps, for every start time, the appointments with that start in order,
      `x` last among them. */
  lemma {:induction false} InsertStable(x: Agendamento, s: seq<Agendamento>, t: string)
    requires Sorted(s)
    ensures StartingAt(Insert(x, s), t) == StartingAt(s, t) + Only(x, t)
  {
    if s == [] {
      assert [x][..0] == [];
    } else if CompareInicio(x, s[0]) < 0 {
      InsertStableFront(x, s, t);
    } else {
      assert Sorted(s[1..]);
      InsertStable(x, s[1..], t);
      InsertStableBehind(x, s, t);
    }
  }

  /** `[x]` when `x` starts at `t`, else nothing. */
  function Only(x: Agendamento, t: string): seq<Agendamento> {
    if x.inicio == t then [x] else []
  }

  lemma InsertStableFront(x: Agendamento, s: seq<Agendamento>, t: string)
    requires Sorted(s) && s != [] && CompareInicio(x, s[0]) < 0
    ensures StartingAt(Insert(x, s), t) == StartingAt(s, t) + Only(x, t)
  {
    assert Insert(x, s) == [x] + s;
    StartingAtCons(x, s, t);
    if x.inicio == t {
      NoneStartAtEarlier(s, t);
    }
  }

  lemma InsertStableBehind(x: Agendamento, s: seq<Agendamento>, t: string)
    requires Sorted(s) && s != [] && CompareInicio(x, s[0]) >= 0
    requires StartingAt(Insert(x, s[1..]), t) == StartingAt(s[1..], t) + Only(x, t)
    ensures StartingAt(Insert(x, s), t) == StartingAt(s, t) + Only(x, t)
  {
    var u := Insert(x, s[1..]);
    var tail := s[1..];
    InsertBehindUnfold(x, s);
    assert [s[0]] + tail == s;
    var a := Only(s[0], t);
    var b := StartingAt(tail, t);
    var c := Only(x, t);
    calc {
      StartingAt(Insert(x, s), t);
      StartingAt([s[0]] + u, t);
      { StartingAtCons(s[0], u, t); }
      a + StartingAt(u, t);
      a + (b + c);
      { ConcatAssoc(a, b, c); }
      (a + b) + c;
      { StartingAtCons(s[0], tail, t); }
      StartingAt([s[0]] + tail, t) + c;
    }
  }

  lemma InsertBehindUnfold(x: Agendamento, s: seq<Agendamento>)
    requires Sorted(s) && s != [] && CompareInicio(x, s[0]) >= 0
    ensures Sorted(s[1..]) && Insert(x, s) == [s[0]] + Insert(x, s[1..])
  {
  }

  /** Filtering the list `[y] + s`. */
  lemma {:induction false} StartingAtCons(y: Agendamento, s: seq<Agendamento>, t: string)
    ensures StartingAt([y] + s, t) == Only(y, t) + StartingAt(s, t)
    decreases |s|
  {
    if s == [] {
      assert ([y] + s)[..0] == [];
    } else {
      var n := |s| - 1;
      assert ([y] + s)[..|[y] + s| - 1] == [y] + s[..n];
      StartingAtCons(y, s[..n], t);
    }
  }

  /** In a sorted list whose first start is later than `t`, nothing starts at `t`. */
  lemma NoneStartAtEarlier(s: seq<Agendamento>, t: string)
    requires Sorted(s) && s != [] && StrLt(t, s[0].inicio)
    ensures StartingAt(s, t) == []
  {
    forall j | 0 <= j < |s|
      ensures s[j].inicio != t
    {
      if s[j].inicio == t {
        StrLtAsymmetric(t, s[0].inicio);
      }
    }
    NoneStarting(s, t);
  }

  lemma {:induction false} NoneStarting(s: seq<Agendamento>, t: string)
    requires forall j :: 0 <= j < |s| ==> s[j].inicio != t
    ensures StartingAt(s, t) == []
  {
    if s != [] {
      NoneStarting(s[..|s| - 1], t);
    }
  }

  /** The sort is stable: for every start time, the appointments with that start appear
      in `lista` in the order they have in `items`. */
  lemma {:induction false} ListaStable(items: seq<Agendamento>, t: string)
    ensures StartingAt(Lista(items), t) == StartingAt(items, t)
  {
    if items != [] {
      var n := |items| - 1;
      ListaStable(items[..n], t);
      InsertStable(items[n], Lista(items[..n]), t);
    }
  }
}
