/**
 The client's four-step booking wizard: choose a barber, choose a date and a time, choose
 services and type the client's name and phone, confirm. The wizard is a value; every
 user action and every server answer maps it to the next value.
*/
module AgendarWizard {
  import opened Wrappers
  import opened Text
  import opened Http
  import opened BarbeiroCard

  const Steps: seq<string> := [
    "Escolha o barbeiro",
    "Escolha a data e horário",
    "Serviços e dados",
    "Confirmar"
  ]

  datatype Tipo = Erro | Sucesso

  datatype Feedback = Feedback(tipo: Tipo, mensagem: string)

  datatype Wizard = Wizard(
    currentStep: int,
    selectedBarbeiro: Option<Barbeiro>,
    selectedDate: string,
    horarios: seq<Json>,
    horariosErro: string,
    selectedHora: string,
    servicosSelecionados: seq<string>,
    cliente: string,
    telefone: string,
    feedback: Option<Feedback>)

  /** The body posted to `/agendar`. */
  datatype Pedido = Pedido(
    cliente: string,
    telefone: string,
    servico: string,
    data: string,
    hora: string,
    barbeiroId: string)

  /** What every reachable wizard satisfies: the step is one of the four, and past the
      first step a barber has been chosen. */
  predicate Valid(w: Wizard) {
    && 1 <= w.currentStep <= |Steps|
    && (w.currentStep >= 2 ==> w.selectedBarbeiro.Some?)
  }

  /** The wizard when the page opens on `today`. */
  function Inicial(today: string): (w: Wizard)
    ensures Valid(w) && w.currentStep == 1
    ensures w.selectedBarbeiro.None? && w.selectedDate == today
  {
    Wizard(1, None, today, [], "", "", [], "", "", None)
  }

  // ---------------------------------------------------------------------------
  // Moving between steps

  /** `podeAvancar`: whether the current step's fields allow going on. */
  predicate PodeAvancar(w: Wizard) {
    if w.currentStep == 1 then w.selectedBarbeiro.Some?
    else if w.currentStep == 2 then w.selectedHora != []
    else if w.currentStep == 3 then
      Trim(w.cliente) != [] && Trim(w.telefone) != [] && |w.servicosSelecionados| != 0
    else true
  }

  /** `avancar`: one step forward when the guard allows it, never past the last step. */
  function Avancar(w: Wizard): (r: Wizard)
    ensures r == w.(currentStep := r.currentStep)
    ensures !PodeAvancar(w) ==> r == w
    ensures PodeAvancar(w) && w.currentStep < |Steps| ==> r.currentStep == w.currentStep + 1
    ensures PodeAvancar(w) && w.currentStep >= |Steps| ==> r.currentStep == |Steps|
    ensures Valid(w) ==> Valid(r)
  {
    if !PodeAvancar(w) then w
    else w.(currentStep := if w.currentStep + 1 < |Steps| then w.currentStep + 1 else |Steps|)
  }

  /** `voltar`: one step back, never before the first; there is no guard. */
  function Voltar(w: Wizard): (r: Wizard)
    ensures r == w.(currentStep := r.currentStep)
    ensures w.currentStep > 1 ==> r.currentStep == w.currentStep - 1
    ensures w.currentStep <= 1 ==> r.currentStep == 1
    ensures Valid(w) ==> Valid(r)
  {
    w.(currentStep := if w.currentStep - 1 > 1 then w.currentStep - 1 else 1)
  }

  /** The guard of the first two steps: a barber is chosen, then a time is chosen; the
      last step never holds the wizard back. */
  lemma PodeAvancarCases(w: Wizard)
    ensures w.currentStep == 1 ==> (PodeAvancar(w) <==> w.selectedBarbeiro.Some?)
    ensures w.currentStep == 2 ==> (PodeAvancar(w) <==> w.selectedHora != [])
    ensures w.currentStep == 4 ==> PodeAvancar(w)
  {
  }

  /** On the third step the trimmed guard means: neither name nor phone is blank. */
  lemma PodeAvancarOnDados(w: Wizard)
    requires w.currentStep == 3
    ensures PodeAvancar(w) <==>
      !AllSpace(w.cliente) && !AllSpace(w.telefone) && w.servicosSelecionados != []
  {
    TrimBlank(w.cliente);
    TrimBlank(w.telefone);
  }

  // ---------------------------------------------------------------------------
  // Choosing barber and date

  /** The effect that watches the barber and the date: going from `prev` to `next`, a
      change of either clears the chosen time, the slot list and the slot error. */
  function ResetHorario(prev: Wizard, next: Wizard): (r: Wizard)
    ensures r.(selectedHora := next.selectedHora, horarios := next.horarios,
               horariosErro := next.horariosErro) == next
    ensures prev.selectedBarbeiro != next.selectedBarbeiro || prev.selectedDate != next.selectedDate
            ==> r.selectedHora == [] && r.horarios == [] && r.horariosErro == []
    ensures prev.selectedBarbeiro == next.selectedBarbeiro && prev.selectedDate == next.selectedDate
            ==> r == next
  {
    if prev.selectedBarbeiro != next.selectedBarbeiro || prev.selectedDate != next.selectedDate
    then next.(selectedHora := "", horarios := [], horariosErro := "")
    else next
  }

  function EscolherBarbeiro(w: Wizard, b: Barbeiro): (r: Wizard)
    ensures r.selectedBarbeiro == Some(b)
    ensures w.selectedBarbeiro != Some(b) ==> r.selectedHora == [] && r.horarios == [] && r.horariosErro == []
    ensures w.selectedBarbeiro == Some(b) ==> r == w
    ensures r.(selectedHora := w.selectedHora, horarios := w.horarios, horariosErro := w.horariosErro)
            == w.(selectedBarbeiro := Some(b))
    ensures Valid(w) ==> Valid(r)
  {
    ResetHorario(w, w.(selectedBarbeiro := Some(b)))
  }

  function EscolherData(w: Wizard, d: string): (r: Wizard)
    ensures r.selectedDate == d
    ensures w.selectedDate != d ==> r.selectedHora == [] && r.horarios == [] && r.horariosErro == []
    ensures w.selectedDate == d ==> r == w
    ensures r.(selectedHora := w.selectedHora, horarios := w.horarios, horariosErro := w.horariosErro)
            == w.(selectedDate := d)
    ensures Valid(w) ==> Valid(r)
  {
    ResetHorario(w, w.(selectedDate := d))
  }

  /** After another barber or another date, the time step is closed until a new time is
      chosen. */
  lemma ChangeClosesTimeStep(w: Wizard, b: Barbeiro, d: string)
    requires w.currentStep == 2
    ensures w.selectedBarbeiro != Some(b) ==> !PodeAvancar(EscolherBarbeiro(w, b))
    ensures w.selectedDate != d ==> !PodeAvancar(EscolherData(w, d))
  {
  }

  // ---------------------------------------------------------------------------
  // Fetching the free times

  predicate IsArray(v: Option<Json>) {
    v.Some? && v.value.JArray?
  }

  /** The list read from the `/horarios` answer: its `horarios` member when that is an
      array, else the answer itself when it is an array, else nothing. */
  function NormalizeHorarios(json: Json): (lista: seq<Json>)
    ensures IsArray(Field(json, "horarios")) ==> lista == json.fields["horarios"].items
    ensures !IsArray(Field(json, "horarios")) && json.JArray? ==> lista == json.items
    ensures !IsArray(Field(json, "horarios")) && !json.JArray? ==> lista == []
  {
    var h := Field(json, "horarios");
    if IsArray(h) then h.value.items
    else if json.JArray? then json.items
    else []
  }

  /** Both shapes of the answer carry the same list. */
  lemma HorariosShapes(xs: seq<Json>, others: map<string, Json>)
    ensures NormalizeHorarios(JArray(xs)) == xs
    ensures NormalizeHorarios(JObject(others["horarios" := JArray(xs)])) == xs
  {
  }

  /** A list is only ever taken from where the answer puts one. */
  lemma HorariosFromAnswer(json: Json)
    ensures NormalizeHorarios(json) == []
            || (json.JArray? && NormalizeHorarios(json) == json.items)
            || (json.JObject? && "horarios" in json.fields
                && NormalizeHorarios(json) == json.fields["horarios"].items)
  {
  }

  /** `buscarHorarios` with the request's outcome `f`. */
  function BuscarHorarios(w: Wizard, f: Outcome): (r: Wizard)
    ensures r == w.(horarios := r.horarios, horariosErro := r.horariosErro)
    ensures w.selectedBarbeiro.None? ==> r == w.(horariosErro := "Selecione um barbeiro.")
    ensures w.selectedBarbeiro.Some? && !(f.Answered? && Ok(f.status))
            ==> r.horarios == [] && r.horariosErro == "Erro ao buscar horários."
    ensures w.selectedBarbeiro.Some? && f.Answered? && Ok(f.status)
            ==> r.horarios == NormalizeHorarios(f.body)
    ensures w.selectedBarbeiro.Some? && f.Answered? && Ok(f.status) && NormalizeHorarios(f.body) == []
            ==> r.horariosErro == "Nenhum horário disponível para esta data."
    ensures w.selectedBarbeiro.Some? ==> (r.horariosErro == [] <==> r.horarios != [])
  {
    if w.selectedBarbeiro.None? then w.(horariosErro := "Selecione um barbeiro.")
    else if !(f.Answered? && Ok(f.status)) then
      w.(horarios := [], horariosErro := "Erro ao buscar horários.")
    else
      var lista := NormalizeHorarios(f.body);
      w.(horarios := lista,
         horariosErro := if |lista| == 0 then "Nenhum horário disponível para esta data." else "")
  }

  // ---------------------------------------------------------------------------
  // Confirming

  /** The guard of `confirmarAgendamento`: the fields are checked untrimmed. */
  predicate CamposPreenchidos(w: Wizard) {
    && w.selectedBarbeiro.Some?
    && w.selectedHora != []
    && w.cliente != []
    && w.telefone != []
    && |w.servicosSelecionados| != 0
  }

  /** The request `confirmarAgendamento` sends, if any. */
  function PedidoDe(w: Wizard): (p: Option<Pedido>)
    ensures p.Some? <==> CamposPreenchidos(w)
    ensures p.Some? ==> p.value == Pedido(w.cliente, w.telefone, Join(w.servicosSelecionados, ", "),
                                          w.selectedDate, w.selectedHora, w.selectedBarbeiro.value.id)
  {
    if CamposPreenchidos(w) then
      Some(Pedido(w.cliente, w.telefone, Join(w.servicosSelecionados, ", "),
                  w.selectedDate, w.selectedHora, w.selectedBarbeiro.value.id))
    else None
  }

  /** The error message `new Error(json?.mensagem || "Erro ao confirmar")` carries. */
  function RecusaMensagem(body: Json): string {
    var m := Field(body, "mensagem");
    if Truthy(m) then ErrorMessage(m) else "Erro ao confirmar"
  }

  /** `confirmarAgendamento` with the outcome `f` of the request, when one is sent. */
  function Confirmar(w: Wizard, f: Outcome): (r: Wizard)
    ensures r == w.(feedback := r.feedback)
    ensures r.feedback.Some? && r.feedback.value.mensagem != []
    ensures !CamposPreenchidos(w) ==> r.feedback == Some(Feedback(Erro, "Preencha todos os campos."))
    ensures r.feedback.value.tipo == Sucesso <==> CamposPreenchidos(w) && f.Answered? && Ok(f.status)
    ensures r.feedback.value.tipo == Sucesso
            ==> r.feedback.value.mensagem == "Agendamento confirmado com sucesso!"
  {
    if !CamposPreenchidos(w) then w.(feedback := Some(Feedback(Erro, "Preencha todos os campos.")))
    else
      match f
      case Answered(status, body) =>
        if Ok(status) then w.(feedback := Some(Feedback(Sucesso, "Agendamento confirmado com sucesso!")))
        else w.(feedback := Some(Feedback(Erro, OrElse(RecusaMensagem(body), "Erro ao confirmar agendamento."))))
      case Threw(message) =>
        w.(feedback := Some(Feedback(Erro, OrElse(message, "Erro ao confirmar agendamento."))))
  }

  /** The messages shown when the server refuses the booking: its own `mensagem` when that
      is a non-empty string, "Erro ao confirmar" when it sent none, and the generic message
      when the value it sent prints as the empty string. */
  lemma RefusalMessages(w: Wizard, status: int, s: string, others: map<string, Json>)
    requires CamposPreenchidos(w) && !Ok(status) && "mensagem" !in others
    ensures s != [] ==> Confirmar(w, Answered(status, JObject(others["mensagem" := JString(s)]))).feedback
                        == Some(Feedback(Erro, s))
    ensures Confirmar(w, Answered(status, JObject(others))).feedback
            == Some(Feedback(Erro, "Erro ao confirmar"))
    ensures Confirmar(w, Answered(status, JObject(others["mensagem" := JArray([])]))).feedback
            == Some(Feedback(Erro, "Erro ao confirmar agendamento."))
  {
    EmptyArrayPrintsEmpty();
  }

  /** The step-three guard together with a chosen time is enough for the confirm guard. */
  lemma DadosGuardImpliesCampos(w: Wizard)
    requires Valid(w) && w.currentStep == 3 && PodeAvancar(w) && w.selectedHora != []
    ensures CamposPreenchidos(w)
  {
  }

  /** The confirm guard does not trim: a blank name passes it but not the step-three guard. */
  lemma BlankNamePassesConfirmGuard(b: Barbeiro)
    ensures var w := Wizard(3, Some(b), "2024-01-01", [], "", "09:00", ["Barba"], " ", "9999", None);
            CamposPreenchidos(w) && !PodeAvancar(w) && PedidoDe(w).Some?
  {
    var w := Wizard(3, Some(b), "2024-01-01", [], "", "09:00", ["Barba"], " ", "9999", None);
    PodeAvancarOnDados(w);
    assert AllSpace(w.cliente);
  }

  // ---------------------------------------------------------------------------
  // Sessions

  datatype Evento =
    | Next
    | Back
    | PickBarbeiro(b: Barbeiro)
    | PickDate(d: string)
    | PickHora(h: string)
    | TypeCliente(c: string)
    | TypeTelefone(t: string)
    | PickServicos(xs: seq<string>)
    | FetchHorarios(f: Outcome)
    | Submit(f: Outcome)

  function Apply(w: Wizard, e: Evento): (r: Wizard)
    ensures Valid(w) ==> Valid(r)
    ensures !e.Next? && !e.Back? ==> r.currentStep == w.currentStep
  {
    match e
    case Next => Avancar(w)
    case Back => Voltar(w)
    case PickBarbeiro(b) => EscolherBarbeiro(w, b)
    case PickDate(d) => EscolherData(w, d)
    case PickHora(h) => w.(selectedHora := h)
    case TypeCliente(c) => w.(cliente := c)
    case TypeTelefone(t) => w.(telefone := t)
    case PickServicos(xs) => w.(servicosSelecionados := xs)
    case FetchHorarios(f) => BuscarHorarios(w, f)
    case Submit(f) => Confirmar(w, f)
  }

  function Run(w: Wizard, es: seq<Evento>): Wizard
    decreases |es|
  {
    if es == [] then w else Run(Apply(w, es[0]), es[1..])
  }

  /** Whatever the user does and the server answers, the step stays within 1..4 and no
      step past the first is shown without a barber. */
  lemma {:induction false} RunValid(w: Wizard, es: seq<Evento>)
    requires Valid(w)
    ensures Valid(Run(w, es))
    decreases |es|
  {
    if es != [] {
      RunValid(Apply(w, es[0]), es[1..]);
    }
  }

  lemma SessionValid(today: string, es: seq<Evento>)
    ensures Valid(Run(Inicial(today), es))
  {
    RunValid(Inicial(today), es);
  }
}
