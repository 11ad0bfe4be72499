/** Whole conversations run through `Dialogue.Run`: the flows a user goes
    through in the chat, from "/start" to the answer to the summary. */
module Scenarios {
  import opened Text
  import opened UserData
  import opened DocumentRequest
  import opened Dialogue

  /** The slot values of a medication that was never asked for. */
  const BLANK: MedEntry := MedEntry(Str(""), Str(""), Str(""))

  /** Running one update is taking one step. */
  lemma RunOne(s: State, ud: UserData, e: Event, backend: Backend)
    requires QtdIsInt(ud)
    ensures Run(s, ud, [e], backend) == Step(s, ud, e, backend)
  {
    assert [e][1..] == [];
  }

  /** Running a non-empty sequence of updates is one step followed by the
      rest. */
  lemma RunCons(s: State, ud: UserData, e: Event, es: seq<Event>, backend: Backend)
    requires QtdIsInt(ud)
    ensures var t := Step(s, ud, e, backend);
      Run(s, ud, [e] + es, backend) == Then(t, Run(t.state, t.userData, es, backend))
  {
    assert ([e] + es)[1..] == es;
  }

  /** A list of six updates, taken apart one at a time. */
  lemma Six(a: Event, b: Event, c: Event, d: Event, e: Event, f: Event)
    ensures [a, b, c, d, e, f] == [a] + ([b] + ([c] + ([d] + ([e] + [f]))))
  {
  }

  /** A single-character clean answer is read back unchanged. */
  lemma CleanDigit(d: string)
    requires |d| == 1 && !IsSpace(d[0])
    ensures Clean(Some(d)) == d
  {
    CleanFixedPoints(d);
  }

  /** "SIM" passes through `clean` unchanged and confirms. */
  lemma SimConfirms()
    ensures Clean(Some(YES)) == YES
    ensures ParseAnswer(Some(YES)) == Yes
  {
    var t := YES;
    assert !IsSpace(t[0]) && !IsSpace(t[1]) && !IsSpace(t[2]);
    CleanFixedPoints(t);
  }

  /** "NAO" passes through `clean` unchanged and cancels. */
  lemma NaoCancels()
    ensures Clean(Some(NO_PLAIN)) == NO_PLAIN
    ensures ParseAnswer(Some(NO_PLAIN)) == No
  {
    var t := NO_PLAIN;
    assert !IsSpace(t[0]) && !IsSpace(t[1]) && !IsSpace(t[2]);
    CleanFixedPoints(t);
  }

  /** `user_data` once the one-medication conversation reaches the
      confirmation. */
  function OneMedicationData(name: string, dose: string, boxes: string, schedule: string): UserData
  {
    map[PACIENTE_KEY := Str(name), QTD_MEDS_KEY := Int(1),
        MedKey(Dose, 1) := Str(dose), MedKey(Caixas, 1) := Str(boxes), MedKey(Posologia, 1) := Str(schedule),
        MedKey(Dose, 2) := Str(""), MedKey(Caixas, 2) := Str(""), MedKey(Posologia, 2) := Str(""),
        MedKey(Dose, 3) := Str(""), MedKey(Caixas, 3) := Str(""), MedKey(Posologia, 3) := Str("")]
  }

  /** The first three updates: "/start", the patient and the count "1". */
  lemma OneMedicationOpening(name: string, backend: Backend)
    requires IsClean(name)
    ensures Step(End, map[], Command("start"), backend) == Transition(Paciente, map[], None)
    ensures Step(Paciente, map[], Message(name), backend) == Transition(QtdMeds, map[PACIENTE_KEY := Str(name)], None)
    ensures Step(QtdMeds, map[PACIENTE_KEY := Str(name)], Message("1"), backend)
         == Transition(Med(1, Dose), map[PACIENTE_KEY := Str(name), QTD_MEDS_KEY := Int(1)], None)
  {
    CleanFixedPoints(name);
    CleanDigit("1");
  }

  /** The dose and the number of boxes of the one medication. */
  lemma OneMedicationAnswers(name: string, dose: string, boxes: string, backend: Backend)
    requires IsClean(dose) && IsClean(boxes)
    ensures var u2 := map[PACIENTE_KEY := Str(name), QTD_MEDS_KEY := Int(1)];
      var u3 := u2[MedKey(Dose, 1) := Str(dose)];
      && Step(Med(1, Dose), u2, Message(dose), backend) == Transition(Med(1, Caixas), u3, None)
      && Step(Med(1, Caixas), u3, Message(boxes), backend) == Transition(Med(1, Posologia), u3[MedKey(Caixas, 1) := Str(boxes)], None)
  {
    CleanFixedPoints(dose);
    CleanFixedPoints(boxes);
  }

  /** The schedule of the one medication, which also blanks slots 2 and 3. */
  lemma OneMedicationSchedule(name: string, dose: string, boxes: string, schedule: string, backend: Backend)
    requires IsClean(schedule)
    ensures var u4 := map[PACIENTE_KEY := Str(name), QTD_MEDS_KEY := Int(1),
                          MedKey(Dose, 1) := Str(dose), MedKey(Caixas, 1) := Str(boxes)];
      Step(Med(1, Posologia), u4, Message(schedule), backend)
         == Transition(Confirma, OneMedicationData(name, dose, boxes, schedule), None)
  {
    CleanFixedPoints(schedule);
    var u4 := map[PACIENTE_KEY := Str(name), QTD_MEDS_KEY := Int(1),
                  MedKey(Dose, 1) := Str(dose), MedKey(Caixas, 1) := Str(boxes)];
    assert BlankedRange(u4[MedKey(Posologia, 1) := Str(schedule)], 2, 4) == OneMedicationData(name, dose, boxes, schedule);
  }

  /** The conversation up to the summary for one medication: after "/start",
      the patient, "1" and the three answers, the dialogue waits for the
      confirmation with the answers stored and slots 2 and 3 blank. */
  lemma OneMedicationSummary(name: string, dose: string, boxes: string, schedule: string, backend: Backend)
    requires IsClean(name) && IsClean(dose) && IsClean(boxes) && IsClean(schedule)
    ensures Run(End, map[], OneMedicationEvents(name, dose, boxes, schedule), backend)
         == Transition(Confirma, OneMedicationData(name, dose, boxes, schedule), None)
  {
    var u1 := map[PACIENTE_KEY := Str(name)];
    var u2 := u1[QTD_MEDS_KEY := Int(1)];
    var u3 := u2[MedKey(Dose, 1) := Str(dose)];
    var u4 := u3[MedKey(Caixas, 1) := Str(boxes)];
    OneMedicationOpening(name, backend);
    OneMedicationAnswers(name, dose, boxes, backend);
    OneMedicationSchedule(name, dose, boxes, schedule, backend);
    Six(Command("start"), Message(name), Message("1"), Message(dose), Message(boxes), Message(schedule));
    RunOne(Med(1, Posologia), u4, Message(schedule), backend);
    RunCons(Med(1, Caixas), u3, Message(boxes), [Message(schedule)], backend);
    RunCons(Med(1, Dose), u2, Message(dose), [Message(boxes)] + [Message(schedule)], backend);
    RunCons(QtdMeds, u1, Message("1"), [Message(dose)] + ([Message(boxes)] + [Message(schedule)]), backend);
    RunCons(Paciente, map[], Message(name), [Message("1")] + ([Message(dose)] + ([Message(boxes)] + [Message(schedule)])), backend);
    RunCons(End, map[], Command("start"), [Message(name)] + ([Message("1")] + ([Message(dose)] + ([Message(boxes)] + [Message(schedule)]))), backend);
  }

  /** What is sent on "SIM" after that conversation: the answers for the
      first medication and empty strings for the other two. */
  lemma OneMedicationPayload(token: string, name: string, dose: string, boxes: string, schedule: string)
    ensures BuildPayload(token, OneMedicationData(name, dose, boxes, schedule))
         == Payload(token, Str(name), MedEntry(Str(dose), Str(boxes), Str(schedule)), BLANK, BLANK)
  {
  }

  /** The events of the one-medication conversation up to the summary. */
  function OneMedicationEvents(name: string, dose: string, boxes: string, schedule: string): seq<Event>
  {
    [Command("start"), Message(name), Message("1"), Message(dose), Message(boxes), Message(schedule)]
  }

  /** The "SIM" step after the one-medication summary. */
  lemma OneMedicationYes(name: string, dose: string, boxes: string, schedule: string, backend: Backend)
    ensures var t := Step(Confirma, OneMedicationData(name, dose, boxes, schedule), Message(YES), backend);
      var p := Payload(backend.token, Str(name), MedEntry(Str(dose), Str(boxes), Str(schedule)), BLANK, BLANK);
      && t.result == Some(Requested(p, Resolve(backend.post(p), backend.decode)))
      && (!t.result.value.outcome.Crashed? ==> t.state == End && t.userData == map[])
  {
    SimConfirms();
    OneMedicationPayload(backend.token, name, dose, boxes, schedule);
  }

  /** Answering "SIM" to the summary sends exactly the collected answers,
      with empty strings for the two unused medications, and the
      conversation ends with `user_data` cleared unless the reply makes the
      handler raise. */
  lemma OneMedicationConfirmed(name: string, dose: string, boxes: string, schedule: string, backend: Backend)
    requires IsClean(name) && IsClean(dose) && IsClean(boxes) && IsClean(schedule)
    ensures var t := Run(End, map[], OneMedicationEvents(name, dose, boxes, schedule) + [Message(YES)], backend);
      var p := Payload(backend.token, Str(name), MedEntry(Str(dose), Str(boxes), Str(schedule)), BLANK, BLANK);
      && t.result == Some(Requested(p, Resolve(backend.post(p), backend.decode)))
      && (!t.result.value.outcome.Crashed? ==> t.state == End && t.userData == map[])
  {
    var ud := OneMedicationData(name, dose, boxes, schedule);
    OneMedicationSummary(name, dose, boxes, schedule, backend);
    RunAppend(End, map[], OneMedicationEvents(name, dose, boxes, schedule), [Message(YES)], backend);
    RunOne(Confirma, ud, Message(YES), backend);
    OneMedicationYes(name, dose, boxes, schedule, backend);
  }

  /** The "NAO" step after the one-medication summary. */
  lemma OneMedicationNo(name: string, dose: string, boxes: string, schedule: string, backend: Backend)
    ensures Step(Confirma, OneMedicationData(name, dose, boxes, schedule), Message(NO_PLAIN), backend)
         == Transition(End, map[], Some(Cancelled))
  {
    NaoCancels();
  }

  /** Answering "NAO" instead sends nothing, ends the conversation and
      clears `user_data`. */
  lemma OneMedicationCancelled(name: string, dose: string, boxes: string, schedule: string, backend: Backend)
    requires IsClean(name) && IsClean(dose) && IsClean(boxes) && IsClean(schedule)
    ensures Run(End, map[], OneMedicationEvents(name, dose, boxes, schedule) + [Message(NO_PLAIN)], backend)
         == Transition(End, map[], Some(Cancelled))
  {
    var ud := OneMedicationData(name, dose, boxes, schedule);
    OneMedicationSummary(name, dose, boxes, schedule, backend);
    RunAppend(End, map[], OneMedicationEvents(name, dose, boxes, schedule), [Message(NO_PLAIN)], backend);
    RunOne(Confirma, ud, Message(NO_PLAIN), backend);
    OneMedicationNo(name, dose, boxes, schedule, backend);
  }
}
