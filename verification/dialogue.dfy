/** The prescription dialogue (app.py:40-259, 269-291): the states, the
    shape `user_data` has in each of them, and a `Session` whose methods are
    the conversation handlers. */
module Dialogue {
  import opened Text
  import opened UserData
  import opened Summary
  import opened DocumentRequest

  /** The twelve states of app.py:40-47 (the nine per-medication states are
      `Med(slot, field)`) and `ConversationHandler.END`. */
  datatype State =
    | Paciente
    | QtdMeds
    | Med(slot: Slot, field: Field)
    | Confirma
    | End

  /** The number each state has in the source: `range(12)`, and -1 for END. */
  function Code(s: State): (c: int)
    ensures -1 <= c <= 11
    ensures c == -1 <==> s == End
    ensures c == 0 <==> s == Paciente
    ensures c == 1 <==> s == QtdMeds
    ensures c == 11 <==> s == Confirma
    ensures s.Med? ==> c == 2 + Position(s.slot, s.field)
  {
    match s
    case Paciente => 0
    case QtdMeds => 1
    case Med(i, f) => 2 + Position(i, f)
    case Confirma => 11
    case End => -1
  }

  /** Different states have different numbers. */
  lemma CodeInjective(s: State, t: State)
    ensures Code(s) == Code(t) <==> s == t
  {
    if s.Med? && t.Med? {
      PositionOrder(s.slot, s.field, t.slot, t.field);
    }
  }

  /** What the chat delivers: a command, a text message, or anything else. */
  datatype Event = Command(name: string) | Message(text: string) | NonText

  /** How a `confirmar` call ends. */
  datatype ConfirmResult =
    | Reprompted                                // app.py:191-193
    | Cancelled                                 // app.py:195-198
    | Requested(payload: Payload, outcome: Outcome)

  /** The states a text message can lead to from each state: the table at
      app.py:269-291 with the handlers' return values. */
  function Successors(s: State): set<State>
  {
    match s
    case Paciente => {QtdMeds}
    case QtdMeds => {QtdMeds, Med(1, Dose)}
    case Med(i, Dose) => {Med(i, Caixas)}
    case Med(i, Caixas) => {Med(i, Posologia)}
    case Med(i, Posologia) => if i < 3 then {Med(i + 1, Dose), Confirma} else {Confirma}
    case Confirma => {Confirma, End}
    case End => {End}
  }

  // ---------------------------------------------------------------------------
  // The shape of user_data in each state
  // ---------------------------------------------------------------------------

  /** Only the dialogue's own keys, each with the type the handlers store. */
  ghost predicate WellTyped(ud: UserData)
  {
    && (forall k :: k in ud ==> DialogueKey(k))
    && (PACIENTE_KEY in ud ==> ud[PACIENTE_KEY].Str?)
    && (QTD_MEDS_KEY in ud ==> ud[QTD_MEDS_KEY].Int? && 1 <= ud[QTD_MEDS_KEY].n <= 3)
    && (forall i: Slot, f: Field :: MedKey(f, i) in ud ==> ud[MedKey(f, i)].Str?)
  }

  /** The slot fields stored are exactly the first `n` in asking order. */
  ghost predicate Collected(ud: UserData, n: int)
  {
    forall i: Slot, f: Field :: MedKey(f, i) in ud <==> Position(i, f) < n
  }

  /** Patient and count stored, and the first `n` slot fields. */
  ghost predicate Filled(ud: UserData, n: int)
  {
    WellTyped(ud) && PACIENTE_KEY in ud && QTD_MEDS_KEY in ud && Collected(ud, n)
  }

  /** All three fields of slot `i` hold the empty string. */
  ghost predicate Blank(ud: UserData, i: Slot)
  {
    forall f: Field :: MedKey(f, i) in ud && ud[MedKey(f, i)] == Str("")
  }

  /** What `user_data` holds in each state. */
  ghost predicate Inv(s: State, ud: UserData)
  {
    && QtdIsInt(ud)
    && match s
    case End => ud == map[]
    case Paciente => ud == map[]
    case QtdMeds => WellTyped(ud) && PACIENTE_KEY in ud && QTD_MEDS_KEY !in ud && Collected(ud, 0)
    case Med(i, f) => Filled(ud, Position(i, f)) && i <= Qtd(ud)
    case Confirma => Filled(ud, 9) && forall i: Slot :: i > Qtd(ud) ==> Blank(ud, i)
  }

  /** The zero-fill of one slot (app.py:129-132, 160-162). */
  function Blanked(ud: UserData, i: Slot): (r: UserData)
    ensures QtdIsInt(ud) ==> QtdIsInt(r) && Qtd(r) == Qtd(ud)
  {
    ud[MedKey(Dose, i) := Str("")][MedKey(Caixas, i) := Str("")][MedKey(Posologia, i) := Str("")]
  }

  /** The zero-fill of slots `from` .. `until - 1`. */
  function BlankedRange(ud: UserData, from: int, until: int): (r: UserData)
    requires 1 <= from <= until <= 4
    ensures QtdIsInt(ud) ==> QtdIsInt(r) && Qtd(r) == Qtd(ud)
    decreases until
  {
    if until == from then ud else Blanked(BlankedRange(ud, from, until - 1), until - 1)
  }

  /** Zero-filling slot `i` sets its three keys to `""` and keeps every
      other key as it was. */
  lemma BlankedValues(ud: UserData, i: Slot)
    ensures var r := Blanked(ud, i);
      && (forall k: Key :: k.MedKey? && k.slot == i ==> k in r && r[k] == Str(""))
      && (forall k: Key :: !(k.MedKey? && k.slot == i) ==> Kept(ud, r, k))
  {
    var r := Blanked(ud, i);
    forall k: Key | k.MedKey? && k.slot == i ensures k in r && r[k] == Str("") {
      assert k == MedKey(k.field, i);
      match k.field
      case Dose =>
      case Caixas =>
      case Posologia =>
    }
  }

  /** Zero-filling slots `from` .. `until - 1` sets their keys to `""` and
      keeps every other key as it was. */
  lemma {:induction false} BlankedRangeValues(ud: UserData, from: int, until: int)
    requires 1 <= from <= until <= 4
    ensures var r := BlankedRange(ud, from, until);
      && (forall k: Key :: k.MedKey? && from <= k.slot < until ==> k in r && r[k] == Str(""))
      && (forall k: Key :: !(k.MedKey? && from <= k.slot < until) ==> Kept(ud, r, k))
    decreases until
  {
    if until > from {
      var r', i := BlankedRange(ud, from, until - 1), until - 1;
      var r := Blanked(r', i);
      BlankedRangeValues(ud, from, i);
      BlankedValues(r', i);
      forall k: Key | k.MedKey? && from <= k.slot < until ensures k in r && r[k] == Str("") {
        if k.slot < i {
          assert k in r' && r'[k] == Str("");
          assert Kept(r', r, k);
        }
      }
      forall k: Key | !(k.MedKey? && from <= k.slot < until) ensures Kept(ud, r, k) {
        assert Kept(ud, r', k) && Kept(r', r, k);
      }
    }
  }

  // ---------------------------------------------------------------------------
  // Lemmas: each handler keeps the shape
  // ---------------------------------------------------------------------------

  /** Storing the next slot field in asking order. */
  lemma StoreKeepsShape(ud: UserData, i: Slot, f: Field, v: string)
    requires Filled(ud, Position(i, f))
    ensures var ud' := ud[MedKey(f, i) := Str(v)];
      && Filled(ud', Position(i, f) + 1)
      && ud'[PACIENTE_KEY] == ud[PACIENTE_KEY] && ud'[QTD_MEDS_KEY] == ud[QTD_MEDS_KEY]
      && forall j: Slot, g: Field :: MedKey(g, j) in ud && (j, g) != (i, f) ==> ud'[MedKey(g, j)] == ud[MedKey(g, j)]
  {
    var ud' := ud[MedKey(f, i) := Str(v)];
    forall j: Slot, g: Field
      ensures MedKey(g, j) in ud' <==> Position(j, g) < Position(i, f) + 1
      ensures (j, g) != (i, f) ==> MedKey(g, j) != MedKey(f, i)
    {
      PositionOrder(j, g, i, f);
    }
  }

  /** Zero-filling the next slot in asking order. */
  lemma BlankKeepsShape(ud: UserData, i: Slot)
    requires Filled(ud, Position(i, Dose))
    ensures var ud' := Blanked(ud, i);
      && Filled(ud', Position(i, Posologia) + 1)
      && Blank(ud', i)
      && ud'[PACIENTE_KEY] == ud[PACIENTE_KEY] && ud'[QTD_MEDS_KEY] == ud[QTD_MEDS_KEY]
      && forall j: Slot, g: Field :: MedKey(g, j) in ud && j != i ==> ud'[MedKey(g, j)] == ud[MedKey(g, j)]
  {
    var u1 := ud[MedKey(Dose, i) := Str("")];
    StoreKeepsShape(ud, i, Dose, "");
    var u2 := u1[MedKey(Caixas, i) := Str("")];
    StoreKeepsShape(u1, i, Caixas, "");
    StoreKeepsShape(u2, i, Posologia, "");
    forall f: Field ensures MedKey(f, i) in Blanked(ud, i) && Blanked(ud, i)[MedKey(f, i)] == Str("") {
    }
  }

  /** `get_qtd_meds` accepting a count leads into the first slot. */
  lemma CountKeepsShape(ud: UserData, text: Option<string>)
    requires Inv(QtdMeds, ud)
    ensures var t := CountStep(ud, text); Inv(t.state, t.userData)
  {
    if ParseCount(Clean(text)).Some? {
      var ud' := ud[QTD_MEDS_KEY := Int(ParseCount(Clean(text)).value)];
      forall j: Slot, g: Field ensures MedKey(g, j) in ud' <==> MedKey(g, j) in ud {
      }
    }
  }


  /** `get_paciente` from the first state. */
  lemma PatientKeepsShape(ud: UserData, text: Option<string>)
    requires Inv(Paciente, ud)
    ensures var t := PatientStep(ud, text); Inv(t.state, t.userData)
  {
    var ud' := ud[PACIENTE_KEY := Str(Clean(text))];
    forall j: Slot, g: Field ensures MedKey(g, j) !in ud' {
    }
  }


  /** Zero-filling slots `from` .. `until - 1` right after slot `from - 1`
      was completed. */
  lemma {:induction false} BlankedRangeShape(u: UserData, from: int, until: int)
    requires 1 <= from <= until <= 4 && Filled(u, 3 * (from - 1))
    ensures var r := BlankedRange(u, from, until);
      && Filled(r, 3 * (until - 1))
      && (forall j: Slot :: from <= j < until ==> Blank(r, j))
      && r[PACIENTE_KEY] == u[PACIENTE_KEY] && r[QTD_MEDS_KEY] == u[QTD_MEDS_KEY]
    decreases until
  {
    if until > from {
      var r' := BlankedRange(u, from, until - 1);
      BlankedRangeShape(u, from, until - 1);
      BlankKeepsShape(r', until - 1);
      var r := Blanked(r', until - 1);
      forall j: Slot | from <= j < until ensures Blank(r, j) {
        if j < until - 1 {
          forall f: Field ensures MedKey(f, j) in r && r[MedKey(f, j)] == Str("") {
            assert Blank(r', j);
          }
        }
      }
    }
  }

  /** After the last dosage schedule the dialogue asks for, every slot above
      the count is blank and confirmation may begin. */
  lemma LastSlotKeepsShape(ud: UserData, i: Slot, v: string)
    requires Inv(Med(i, Posologia), ud) && Qtd(ud) == i
    ensures var ud' := BlankedRange(ud[MedKey(Posologia, i) := Str(v)], i + 1, 4);
      Inv(Confirma, ud')
  {
    var u := ud[MedKey(Posologia, i) := Str(v)];
    StoreKeepsShape(ud, i, Posologia, v);
    BlankedRangeShape(u, i + 1, 4);
    var r := BlankedRange(u, i + 1, 4);
    assert Qtd(r) == i;
  }

  /** Storing a dose or a box count moves to the next field of the slot. */
  lemma AnswerKeepsShape(ud: UserData, i: Slot, f: Field, text: Option<string>)
    requires Inv(Med(i, f), ud) && f != Posologia
    ensures var t := AnswerStep(ud, i, f, text); Inv(t.state, t.userData)
  {
    StoreKeepsShape(ud, i, f, Clean(text));
  }


  /** Storing a dosage schedule moves to the next slot while the count
      allows, and otherwise to confirmation once the unused slots are blank. */
  lemma ScheduleKeepsShape(ud: UserData, i: Slot, text: Option<string>)
    requires Inv(Med(i, Posologia), ud)
    ensures var t := ScheduleStep(ud, i, text); Inv(t.state, t.userData)
  {
    StoreKeepsShape(ud, i, Posologia, Clean(text));
    if i == Qtd(ud) {
      LastSlotKeepsShape(ud, i, Clean(text));
    }
  }

  /** The request sent from the confirmation state carries the stored
      answers for the slots up to the count and empty strings for the rest. */
  lemma PayloadAtConfirmation(token: string, ud: UserData)
    requires Inv(Confirma, ud)
    ensures var p := BuildPayload(token, ud);
      && p.paciente == ud[PACIENTE_KEY] && p.paciente.Str?
      && (forall i: Slot, f: Field :: i <= Qtd(ud) ==> PayloadField(p, i, f) == ud[MedKey(f, i)] && ud[MedKey(f, i)].Str?)
      && (forall i: Slot, f: Field :: i > Qtd(ud) ==> PayloadField(p, i, f) == Str(""))
  {
    var p := BuildPayload(token, ud);
    forall i: Slot, f: Field
      ensures PayloadField(p, i, f) == ud[MedKey(f, i)] && ud[MedKey(f, i)].Str?
      ensures i > Qtd(ud) ==> PayloadField(p, i, f) == Str("")
    {
      assert MedKey(f, i) in ud;
      if i > Qtd(ud) {
        assert Blank(ud, i);
      }
    }
  }

  // ---------------------------------------------------------------------------
  // The conversation as a transition function
  // ---------------------------------------------------------------------------

  /** The state, `user_data` and confirmation result after one update. */
  datatype Transition = Transition(state: State, userData: UserData, result: Option<ConfirmResult>)

  /** `get_paciente` (app.py:85-90): the cleaned name is stored and nothing
      else changes. */
  function PatientStep(ud: UserData, text: Option<string>): (t: Transition)
    ensures t.state == QtdMeds && t.result.None?
    ensures PACIENTE_KEY in t.userData && t.userData[PACIENTE_KEY] == Str(Clean(text))
    ensures forall k :: k != PACIENTE_KEY ==> Kept(ud, t.userData, k)
  {
    Transition(QtdMeds, ud[PACIENTE_KEY := Str(Clean(text))], None)
  }

  /** `get_qtd_meds` (app.py:93-104): anything but "1", "2" or "3" asks
      again and changes nothing; a valid count is stored as the integer it
      spells and nothing else changes. */
  function CountStep(ud: UserData, text: Option<string>): (t: Transition)
    ensures t.result.None?
    ensures t.state == QtdMeds <==> Clean(text) !in {"1", "2", "3"}
    ensures t.state == QtdMeds ==> t.userData == ud
    ensures t.state != QtdMeds ==>
      && t.state == Med(1, Dose)
      && QTD_MEDS_KEY in t.userData && t.userData[QTD_MEDS_KEY].Int?
      && 1 <= t.userData[QTD_MEDS_KEY].n <= 3 && Decimal(t.userData[QTD_MEDS_KEY].n) == Clean(text)
      && forall k :: k != QTD_MEDS_KEY ==> Kept(ud, t.userData, k)
  {
    match ParseCount(Clean(text))
    case None => Transition(QtdMeds, ud, None)
    case Some(n) => Transition(Med(1, Dose), ud[QTD_MEDS_KEY := Int(n)], None)
  }

  /** `medN_dose` and `medN_caixas` (app.py:108-117, 139-148, 169-178): the
      answer is stored under its key, nothing else changes, and the next
      field in asking order is asked. */
  function AnswerStep(ud: UserData, i: Slot, f: Field, text: Option<string>): (t: Transition)
    requires f != Posologia
    ensures t.result.None?
    ensures t.state.Med? && t.state.slot == i && Position(i, t.state.field) == Position(i, f) + 1
    ensures MedKey(f, i) in t.userData && t.userData[MedKey(f, i)] == Str(Clean(text))
    ensures forall k :: k != MedKey(f, i) ==> Kept(ud, t.userData, k)
  {
    Transition(Med(i, if f == Dose then Caixas else Posologia), ud[MedKey(f, i) := Str(Clean(text))], None)
  }

  /** `medN_posologia` (app.py:120-135, 151-165, 181-184): the schedule is
      stored; the dialogue asks for the next slot while the count allows,
      and otherwise moves to confirmation with every later slot set to
      `""`; nothing else changes. */
  function ScheduleStep(ud: UserData, i: Slot, text: Option<string>): (t: Transition)
    requires QtdIsInt(ud)
    ensures t.result.None?
    ensures t.state == Confirma <==> i == 3 || Qtd(ud) <= i
    ensures t.state != Confirma ==> t.state == Med(i + 1, Dose)
    ensures MedKey(Posologia, i) in t.userData && t.userData[MedKey(Posologia, i)] == Str(Clean(text))
    ensures t.state == Confirma ==>
      forall k: Key :: k.MedKey? && i < k.slot <= 3 ==> k in t.userData && t.userData[k] == Str("")
    ensures forall k: Key :: k != MedKey(Posologia, i) && !(t.state == Confirma && k.MedKey? && k.slot > i) ==>
      Kept(ud, t.userData, k)
  {
    var u := ud[MedKey(Posologia, i) := Str(Clean(text))];
    if i < 3 && i < Qtd(ud) then Transition(Med(i + 1, Dose), u, None)
    else
      BlankedRangeValues(u, i + 1, 4);
      Transition(Confirma, BlankedRange(u, i + 1, 4), None)
  }

  /** `confirmar` (app.py:188-253). */
  function ConfirmStep(ud: UserData, text: Option<string>, backend: Backend): (t: Transition)
    ensures t.state == Confirma ==> t.userData == ud
    ensures t.state != Confirma ==> t.state == End && t.userData == map[]
  {
    match ParseAnswer(text)
    case Unrecognised => Transition(Confirma, ud, Some(Reprompted))
    case No => Transition(End, map[], Some(Cancelled))
    case Yes =>
      var p := BuildPayload(backend.token, ud);
      var o := Resolve(backend.post(p), backend.decode);
      if o.Crashed? then Transition(Confirma, ud, Some(Requested(p, o)))
      else Transition(End, map[], Some(Requested(p, o)))
  }

  /** What the handler of state `s` does with a text message, routed by the
      table at app.py:269-291; outside a conversation nothing happens. */
  function TextStep(s: State, ud: UserData, text: Option<string>, backend: Backend): (t: Transition)
    requires QtdIsInt(ud)
    ensures QtdIsInt(t.userData)
    ensures t.state in Successors(s)
    ensures t.result.Some? <==> s == Confirma
  {
    match s
    case End => Transition(End, ud, None)
    case Paciente => PatientStep(ud, text)
    case QtdMeds => CountStep(ud, text)
    case Med(i, Posologia) => ScheduleStep(ud, i, text)
    case Med(i, f) => AnswerStep(ud, i, f, text)
    case Confirma => ConfirmStep(ud, text, backend)
  }

  /** One update through the conversation handler: "/start" enters from any
      state, "/cancel" ends an active conversation, a text message goes to
      the current state's handler, and anything else is ignored. */
  function Step(s: State, ud: UserData, e: Event, backend: Backend): (t: Transition)
    requires QtdIsInt(ud)
    ensures QtdIsInt(t.userData)
  {
    match e
    case NonText => Transition(s, ud, None)
    case Command(name) =>
      if name == "start" then Transition(Paciente, map[], None)
      else if name == "cancel" && s != End then Transition(End, map[], None)
      else Transition(s, ud, None)
    case Message(t) => TextStep(s, ud, Some(t), backend)
  }

  /** `first` followed by `rest`: the state and data of `rest`, and the
      last confirmation result of the two. */
  function Then(first: Transition, rest: Transition): Transition
  {
    if rest.result.None? then Transition(rest.state, rest.userData, first.result) else rest
  }

  /** A sequence of updates; the last confirmation result is kept. */
  function Run(s: State, ud: UserData, events: seq<Event>, backend: Backend): (t: Transition)
    requires QtdIsInt(ud)
    ensures QtdIsInt(t.userData)
    decreases |events|
  {
    if events == [] then Transition(s, ud, None)
    else
      var t := Step(s, ud, events[0], backend);
      Then(t, Run(t.state, t.userData, events[1..], backend))
  }

  /** Running two sequences one after the other is running their
      concatenation. */
  lemma {:induction false} RunAppend(s: State, ud: UserData, xs: seq<Event>, ys: seq<Event>, backend: Backend)
    requires QtdIsInt(ud)
    ensures var first := Run(s, ud, xs, backend);
      Run(s, ud, xs + ys, backend) == Then(first, Run(first.state, first.userData, ys, backend))
    decreases |xs|
  {
    if xs == [] {
      assert xs + ys == ys;
    } else {
      var t := Step(s, ud, xs[0], backend);
      assert (xs + ys)[0] == xs[0] && (xs + ys)[1..] == xs[1..] + ys;
      RunAppend(t.state, t.userData, xs[1..], ys, backend);
    }
  }


  /** The shape is kept by every handler of a text message. */
  lemma TextStepKeepsShape(s: State, ud: UserData, text: Option<string>, backend: Backend)
    requires Inv(s, ud)
    ensures var t := TextStep(s, ud, text, backend); Inv(t.state, t.userData)
  {
    match s
    case End =>
    case Paciente => PatientKeepsShape(ud, text);
    case QtdMeds => CountKeepsShape(ud, text);
    case Med(i, Posologia) => ScheduleKeepsShape(ud, i, text);
    case Med(i, f) => AnswerKeepsShape(ud, i, f, text);
    case Confirma =>
  }

  /** Every state records what it needs: the shape of `user_data` is an
      invariant of the conversation. */
  lemma StepKeepsShape(s: State, ud: UserData, e: Event, backend: Backend)
    requires Inv(s, ud)
    ensures var t := Step(s, ud, e, backend); Inv(t.state, t.userData)
  {
    if e.Message? {
      TextStepKeepsShape(s, ud, Some(e.text), backend);
    }
  }

  /** ... and so of any sequence of updates. */
  lemma {:induction false} RunKeepsShape(s: State, ud: UserData, events: seq<Event>, backend: Backend)
    requires Inv(s, ud)
    ensures var t := Run(s, ud, events, backend); Inv(t.state, t.userData)
    decreases |events|
  {
    if events != [] {
      var t := Step(s, ud, events[0], backend);
      StepKeepsShape(s, ud, events[0], backend);
      RunKeepsShape(t.state, t.userData, events[1..], backend);
    }
  }

  /** The commands: "/start" restarts from any state with an empty
      `user_data`; "/cancel" ends an active conversation and clears it, and
      does nothing outside one; other commands and non-text updates change
      nothing. */
  lemma StepCommands(s: State, ud: UserData, e: Event, backend: Backend)
    requires QtdIsInt(ud)
    ensures var t := Step(s, ud, e, backend);
      && (e == Command("start") ==> t == Transition(Paciente, map[], None))
      && (e == Command("cancel") && s != End ==> t == Transition(End, map[], None))
      && ((e.Command? && e.name !in {"start", "cancel"}) || e.NonText? || (e == Command("cancel") && s == End)
          ==> t == Transition(s, ud, None))
  {
  }

  /** A text message moves along the table, asks again on a count other
      than "1", "2" or "3" or an unrecognised confirmation answer, leaves
      the last medication once the stored count is reached, and is the only
      update that yields a confirmation result. */
  lemma StepText(s: State, ud: UserData, text: string, backend: Backend)
    requires Inv(s, ud)
    ensures var t := Step(s, ud, Message(text), backend);
      && t.state in Successors(s)
      && (s == End ==> t == Transition(End, ud, None))
      && (s == QtdMeds && Clean(Some(text)) !in {"1", "2", "3"} ==> t == Transition(QtdMeds, ud, None))
      && (s == Confirma && ParseAnswer(Some(text)) == Unrecognised ==> t == Transition(Confirma, ud, Some(Reprompted)))
      && (s.Med? && s.field == Posologia ==> (t.state == Confirma <==> s.slot == Qtd(ud)))
      && (t.result.Some? <==> s == Confirma)
      && (t.result.Some? && t.result.value.Requested? ==> t.result.value.payload == BuildPayload(backend.token, ud))
  {
  }

  /** A conversation that has ended holds no data. */
  lemma StepEndsEmpty(s: State, ud: UserData, e: Event, backend: Backend)
    requires Inv(s, ud)
    ensures var t := Step(s, ud, e, backend); t.state == End ==> t.userData == map[]
  {
    StepKeepsShape(s, ud, e, backend);
  }

  // ---------------------------------------------------------------------------
  // The session and its handlers
  // ---------------------------------------------------------------------------

  /** One conversation: the state the conversation handler keeps for it and
      its `context.user_data`. */
  class Session {
    var state: State
    var userData: UserData

    ghost predicate Valid()
      reads this
    {
      Inv(state, userData)
    }

    /** A conversation that has not started. */
    constructor ()
      ensures Valid()
      ensures state == End && userData == map[]
    {
      state := End;
      userData := map[];
    }

    /** `start` (app.py:75-82). */
    method Start() returns (next: State)
      modifies this`userData
      ensures userData == map[]
      ensures next == Paciente
    {
      userData := map[];
      next := Paciente;
    }

    /** `get_paciente` (app.py:85-90). */
    method GetPaciente(text: Option<string>) returns (next: State)
      modifies this`userData
      ensures userData == old(userData)[PACIENTE_KEY := Str(Clean(text))]
      ensures next == QtdMeds
    {
      userData := userData[PACIENTE_KEY := Str(Clean(text))];
      next := QtdMeds;
    }

    /** `get_qtd_meds` (app.py:93-104): anything but "1", "2" or "3" after
        cleaning re-asks and changes nothing. */
    method GetQtdMeds(text: Option<string>) returns (next: State)
      modifies this`userData
      ensures match ParseCount(Clean(text))
        case None => next == QtdMeds && userData == old(userData)
        case Some(n) => next == Med(1, Dose) && userData == old(userData)[QTD_MEDS_KEY := Int(n)]
    {
      match ParseCount(Clean(text))
      case None =>
        next := QtdMeds;
      case Some(n) =>
        userData := userData[QTD_MEDS_KEY := Int(n)];
        next := Med(1, Dose);
    }

    /** `med1_dose`, `med2_dose`, `med3_dose` (app.py:108-111, 139-142,
        169-172). */
    method MedDose(i: Slot, text: Option<string>) returns (next: State)
      modifies this`userData
      ensures userData == old(userData)[MedKey(Dose, i) := Str(Clean(text))]
      ensures next == Med(i, Caixas)
    {
      userData := userData[MedKey(Dose, i) := Str(Clean(text))];
      next := Med(i, Caixas);
    }

    /** `med1_caixas`, `med2_caixas`, `med3_caixas` (app.py:114-117,
        145-148, 175-178). */
    method MedCaixas(i: Slot, text: Option<string>) returns (next: State)
      modifies this`userData
      ensures userData == old(userData)[MedKey(Caixas, i) := Str(Clean(text))]
      ensures next == Med(i, Posologia)
    {
      userData := userData[MedKey(Caixas, i) := Str(Clean(text))];
      next := Med(i, Posologia);
    }

    /** `med1_posologia` (app.py:120-135): with two or more medications ask
        for the second; otherwise zero-fill slots 2 and 3 and show the
        summary. */
    method Med1Posologia(text: Option<string>) returns (next: State, summary: Option<string>)
      requires QtdIsInt(userData)
      modifies this`userData
      ensures QtdIsInt(userData) && Qtd(userData) == Qtd(old(userData))
      ensures Qtd(userData) >= 2 ==>
        && next == Med(2, Dose) && summary == None
        && userData == old(userData)[MedKey(Posologia, 1) := Str(Clean(text))]
      ensures Qtd(userData) < 2 ==>
        && next == Confirma && summary == Some(SummaryText(userData))
        && userData == BlankedRange(old(userData)[MedKey(Posologia, 1) := Str(Clean(text))], 2, 4)
    {
      userData := userData[MedKey(Posologia, 1) := Str(Clean(text))];
      var qtd := Qtd(userData);
      if qtd >= 2 {
        next, summary := Med(2, Dose), None;
        return;
      }
      ghost var stored := userData;
      var i := 2;
      while i <= 3
        invariant 2 <= i <= 4
        invariant userData == BlankedRange(stored, 2, i)
      {
        userData := userData[MedKey(Dose, i) := Str("")];
        userData := userData[MedKey(Caixas, i) := Str("")];
        userData := userData[MedKey(Posologia, i) := Str("")];
        i := i + 1;
      }
      assert i == 4 && userData == BlankedRange(stored, 2, 4);
      next, summary := Confirma, Some(SummaryText(userData));
    }

    /** `med2_posologia` (app.py:151-165): with three medications ask for
        the third; otherwise zero-fill slot 3 and show the summary. */
    method Med2Posologia(text: Option<string>) returns (next: State, summary: Option<string>)
      requires QtdIsInt(userData)
      modifies this`userData
      ensures QtdIsInt(userData) && Qtd(userData) == Qtd(old(userData))
      ensures Qtd(userData) >= 3 ==>
        && next == Med(3, Dose) && summary == None
        && userData == old(userData)[MedKey(Posologia, 2) := Str(Clean(text))]
      ensures Qtd(userData) < 3 ==>
        && next == Confirma && summary == Some(SummaryText(userData))
        && userData == BlankedRange(old(userData)[MedKey(Posologia, 2) := Str(Clean(text))], 3, 4)
    {
      userData := userData[MedKey(Posologia, 2) := Str(Clean(text))];
      var qtd := Qtd(userData);
      if qtd >= 3 {
        next, summary := Med(3, Dose), None;
        return;
      }
      ghost var stored := userData;
      userData := userData[MedKey(Dose, 3) := Str("")];
      userData := userData[MedKey(Caixas, 3) := Str("")];
      userData := userData[MedKey(Posologia, 3) := Str("")];
      assert userData == BlankedRange(stored, 3, 4);
      next, summary := Confirma, Some(SummaryText(userData));
    }

    /** `med3_posologia` (app.py:181-184). */
    method Med3Posologia(text: Option<string>) returns (next: State, summary: string)
      requires QtdIsInt(userData)
      modifies this`userData
      ensures userData == old(userData)[MedKey(Posologia, 3) := Str(Clean(text))]
      ensures QtdIsInt(userData) && summary == SummaryText(userData)
      ensures next == Confirma
    {
      userData := userData[MedKey(Posologia, 3) := Str(Clean(text))];
      next, summary := Confirma, SummaryText(userData);
    }

    /** `confirmar` (app.py:188-253): an unrecognised answer re-asks and
        changes nothing; "NÃO"/"NAO" clears and ends without a request;
        "SIM" sends the payload and, unless the reply makes the handler
        raise, clears and ends whatever the outcome. */
    method Confirmar(text: Option<string>, backend: Backend) returns (next: State, result: ConfirmResult)
      modifies this`userData
      ensures ParseAnswer(text) == Unrecognised ==>
        next == Confirma && result == Reprompted && userData == old(userData)
      ensures ParseAnswer(text) == No ==>
        next == End && result == Cancelled && userData == map[]
      ensures ParseAnswer(text) == Yes ==>
        && var p := BuildPayload(backend.token, old(userData));
        && result == Requested(p, Resolve(backend.post(p), backend.decode))
        && (result.outcome.Crashed? ==> next == Confirma && userData == old(userData))
        && (!result.outcome.Crashed? ==> next == End && userData == map[])
    {
      var answer := ParseAnswer(text);
      if answer == Unrecognised {
        next, result := Confirma, Reprompted;
        return;
      }
      if answer == No {
        userData := map[];
        next, result := End, Cancelled;
        return;
      }
      var payload := BuildPayload(backend.token, userData);
      var outcome := Resolve(backend.post(payload), backend.decode);
      result := Requested(payload, outcome);
      if outcome.Crashed? {
        next := Confirma;
        return;
      }
      userData := map[];
      next := End;
    }

    /** `cancel` (app.py:256-259). */
    method Cancel() returns (next: State)
      modifies this`userData
      ensures userData == map[]
      ensures next == End
    {
      userData := map[];
      next := End;
    }

    /** The three `medN_posologia` handlers behind the table of
        app.py:269-291: the dialogue asks for the next slot while the count
        allows and otherwise moves to confirmation. */
    method FinishSlot(i: Slot, text: Option<string>)
      requires QtdIsInt(userData)
      modifies this
      ensures var u := old(userData)[MedKey(Posologia, i) := Str(Clean(text))];
        if i < 3 && i < Qtd(old(userData)) then state == Med(i + 1, Dose) && userData == u
        else state == Confirma && userData == BlankedRange(u, i + 1, 4)
    {
      ghost var stored := userData[MedKey(Posologia, i) := Str(Clean(text))];
      var summary;
      if i == 1 {
        state, summary := Med1Posologia(text);
      } else if i == 2 {
        state, summary := Med2Posologia(text);
      } else {
        var shown;
        state, shown := Med3Posologia(text);
        assert userData == BlankedRange(stored, 4, 4);
      }
    }

    /** A command: "/start" enters from any state (`allow_reentry`),
        "/cancel" is the fallback of an active conversation, and any other
        command is ignored. */
    method OnCommand(name: string)
      modifies this
      ensures name == "start" ==> state == Paciente && userData == map[]
      ensures name == "cancel" && old(state) != End ==> state == End && userData == map[]
      ensures name !in {"start", "cancel"} || (name == "cancel" && old(state) == End) ==>
        state == old(state) && userData == old(userData)
    {
      if name == "start" {
        state := Start();
      } else if name == "cancel" && state != End {
        state := Cancel();
      }
    }

    /** A text message goes to the handler of the current state; outside a
        conversation it is ignored. */
    method OnText(t: string, backend: Backend) returns (result: Option<ConfirmResult>)
      requires QtdIsInt(userData)
      modifies this
      ensures Transition(state, userData, result) == TextStep(old(state), old(userData), Some(t), backend)
    {
      result := None;
      var text := Some(t);
      match state
      case End =>
      case Paciente =>
        state := GetPaciente(text);
      case QtdMeds =>
        state := GetQtdMeds(text);
      case Med(i, Dose) =>
        state := MedDose(i, text);
      case Med(i, Caixas) =>
        state := MedCaixas(i, text);
      case Med(i, Posologia) =>
        FinishSlot(i, text);
      case Confirma =>
        var next, r := Confirmar(text, backend);
        state, result := next, Some(r);
    }

    /** One update through the conversation handler of app.py:269-291, as
        `Step` describes it; the session stays valid. */
    method Handle(event: Event, backend: Backend) returns (result: Option<ConfirmResult>)
      requires Valid()
      modifies this
      ensures Valid()
      ensures Transition(state, userData, result) == Step(old(state), old(userData), event, backend)
    {
      StepKeepsShape(state, userData, event, backend);
      result := None;
      match event
      case NonText =>
      case Command(name) =>
        OnCommand(name);
      case Message(t) =>
        result := OnText(t, backend);
    }
  }
}
