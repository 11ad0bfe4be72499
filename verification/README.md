# Prescription dialogue of telegram-receita-pdf, in Dafny

telegram-receita-pdf is a Telegram bot. It walks a user through a
prescription and then asks a document service to turn the answers into a PDF.
The questions come in order:

- the patient's full name;
- how many medications (1, 2 or 3);
- for each medication, its name and dosage, the number of boxes and the
  dosage schedule;
- a final "SIM" / "NÃO" confirmation of the summary.

This project models the dialogue controller of `app.py`:

- the whitespace normalizer `clean`;
- `get_qtd` and `summary_text`;
- every conversation handler, from `start` to `confirmar` and `cancel`;
- the state-to-handler table of the conversation handler.

It proves what the dialogue promises about `context.user_data`.

Modules, one per file:

- `Text` (`text.dfy`): `clean` as Python's `" ".join(s.strip().split())`,
  with Python's `str.isspace` whitespace. Also `str.upper()` as far as the
  confirmation tokens need it, and decimal numerals. Proved: the result of
  `clean` has no whitespace at either end, no two whitespace characters in a
  row and no whitespace other than `' '`; it keeps the words of its input;
  it is idempotent; and its fixed points are exactly the clean strings.
- `UserData` (`user_data.dfy`): the values the handlers store, strings or
  the integer count. The keys are a datatype: `Name` gives the string each
  key stands for, and `NamesDistinct` shows that the eleven keys have
  eleven different names. So a map over keys is the dictionary over their
  names. This file also holds `dict.get` and `get_qtd`.
- `Summary` (`summary.dfy`): `summary_text`, a header, the patient line,
  one block of three lines per medication up to the count, and the
  instructions.
- `DocumentRequest` (`request.dfy`): the request body `confirmar` builds,
  and what it makes of the service's reply. The HTTP call and the base64
  decoder are functions passed in as `Backend`.
- `Dialogue` (`dialogue.dfy`): the states, and the shape `user_data` has in
  each state (`Inv`). It has one step function per handler, `Step` for one
  update through the table, and `Run` for a sequence of updates. The class
  `Session` holds the conversation state and a mutable `userData` map. Its
  methods are the handlers (`Start`, `GetPaciente`, `GetQtdMeds`, `MedDose`,
  `MedCaixas`, `Med1Posologia`, `Med2Posologia`, `Med3Posologia`,
  `Confirmar`, `Cancel`). `Handle` routes one update to them. `Handle` is
  proved to do what `Step` says, and to keep `Inv`.
- `Scenarios` (`scenarios.dfy`): one whole conversation with one
  medication. It runs from "/start" to the summary, then to "SIM" or "NAO".

The three `medN_dose` handlers are one method, `MedDose`, with the slot as a
parameter. The same holds for `medN_caixas` and `MedCaixas`. The handlers are
identical but for the key they write and the state they return.

The handlers store whatever `clean` returns, including `""` for a message
made only of whitespace. No answer is checked to be non-empty, and the model
does the same.

## Model

| member | source | states |
|---|---|---|
| Text.Clean | app.py:50-51 | a missing message text (`None`) normalizes to the empty string |
| Text.CleanShape | app.py:50-51 | the result of `clean` has no leading or trailing whitespace, no two whitespace characters in a row, and no whitespace but `' '`; it has exactly the words (`str.split()`) of its input |
| Text.CleanIdempotent | app.py:50-51 | `clean(clean(t)) == clean(t)` |
| Text.CleanFixedPoints | app.py:50-51 | `clean` leaves a string unchanged exactly when the string is clean |
| Text.Strip | app.py:51 | `strip()` leaves no whitespace at either end and never lengthens the string |
| Text.WordsEmpty | app.py:51 | `split()` returns no words exactly when the string is all whitespace |
| Text.Join | app.py:51 | `sep.join(parts)` starts with the first part |
| Text.JoinEndsWithLast | app.py:72 | `sep.join(parts)` ends with the last part |
| Text.JoinOpens | app.py:72 | with three parts or more, `sep.join(parts)` opens with the first part, the separator, the second part and the separator |
| Text.StripLeftIsSuffix | app.py:51 | `lstrip` removes only a prefix, and only whitespace |
| Text.StripRightIsPrefix | app.py:51 | `rstrip` removes only a suffix, and only whitespace |
| Text.WordsAreWords | app.py:51 | every piece `str.split()` returns is a non-empty run of non-whitespace |
| Text.JoinWordsIsClean | app.py:51 | joining words with single spaces gives a clean string |
| Text.WordsOfJoin | app.py:51 | splitting words joined by single spaces gives back the words |
| Text.JoinWordsOfClean | app.py:51 | joining the words of a clean string gives back the string |
| Text.StripKeepsWords | app.py:51 | stripping does not change the words of a string |
| Text.Upper | app.py:189 | the model's upper-casing maps character by character, so it keeps the length (Python's `str.upper()` need not, see "Left out") |
| Text.UpperAnswer | app.py:189-191 | the upper-cased string is "SIM" exactly for the case spellings of "sim", and "NÃO" or "NAO" exactly for the case spellings of "não" and "nao" |
| Text.ParseAnswer | app.py:189-195 | the confirmation answer is affirmative exactly when the cleaned text spells "sim" in some mix of cases, negative exactly when it spells "não" or "nao", and unrecognised otherwise |
| Text.ParseCount | app.py:94-99 | the count is accepted exactly when the cleaned text is "1", "2" or "3", and `int(t)` gives a number in 1..3 whose decimal form is `t` |
| UserData.Get | app.py:203-217 | `dict.get`: the stored value when the key is present, the default otherwise |
| UserData.Qtd | app.py:54-55 | `get_qtd`: the stored count, or 1 when none is stored |
| UserData.NamesDistinct | app.py:64-66 | two keys the dialogue uses have the same name exactly when they are the same key |
| UserData.Position | app.py:40-47 | the nine slot fields are numbered 0..8; the slot is the number divided by 3, plus 1, and the field's place in the slot is the remainder |
| UserData.PositionOrder | app.py:40-47 | two slot fields have the same number exactly when they are the same field of the same slot; dose, boxes and schedule are consecutive, and the schedule of a slot is followed by the dose of the next |
| Summary.MedLinesShape | app.py:63-69 | the loop appends three lines per index, in order, and block `k` is the three lines for medication `k` |
| Summary.SummaryLines | app.py:61-71 | the summary has `3 + 3 * qtd` lines, and 3 when `qtd` is not positive |
| Summary.SummaryEnds | app.py:61-71 | the first line is the header, the second the patient line, and the last the closing instructions |
| Summary.SummaryText | app.py:58-72 | the text opens with the header and the patient line, each followed by a newline, and ends with the closing instructions |
| Summary.SummaryBlocks | app.py:58-72 | medication `k`, for `k` up to `get_qtd`, is shown in lines `3k-1` to `3k+1` |
| Summary.SummaryWithoutCount | app.py:54-72 | with no count stored, the summary shows exactly one medication block |
| DocumentRequest.BuildPayload | app.py:201-219 | the body carries the shared token and the patient, and always three medication objects; each field is the stored value, or `""` when the key is missing |
| DocumentRequest.Truthy | app.py:232 | a decoded value is falsy exactly when it is null, false, 0, the empty string, the empty list or the empty object |
| DocumentRequest.Resolve | app.py:223-253 | an exception in the call or in `r.json()` is a call failure; a reply that is not an object makes the handler raise; a falsy `ok` is a service error carrying the reply; after a truthy `ok`, the document is delivered exactly when `base64` is a string the decoder accepts, and is otherwise a decoding failure; a delivered document is what the decoder made of the `base64` field, with `filename` defaulting to "receita.pdf" |
| Dialogue.Code | app.py:40-47 | END is -1, PACIENTE 0, QTD_MEDS 1, CONFIRMA 11, and the slot questions 2..10 in asking order (two plus the slot field's number) |
| Dialogue.CodeInjective | app.py:40-47 | two states have the same number exactly when they are the same state |
| Dialogue.Blanked | app.py:129-132 | zero-filling a slot leaves the count unchanged |
| Dialogue.BlankedRange | app.py:128-132 | zero-filling several slots leaves the count unchanged |
| Dialogue.BlankedValues | app.py:128-132 | zero-filling a slot sets its three keys to `""` and keeps every other key, present or absent, as it was |
| Dialogue.BlankedRangeValues | app.py:128-132 | zero-filling a range of slots sets their keys to `""` and keeps every other key as it was |
| Dialogue.StoreKeepsShape | app.py:108-121 | storing the next answer in asking order (as every `medN_*` handler does) adds exactly that key and changes no other |
| Dialogue.BlankKeepsShape | app.py:159-162 | zero-filling the next slot adds its three keys with `""` and changes no other value |
| Dialogue.BlankedRangeShape | app.py:128-132 | zero-filling the slots after the last one asked leaves all nine slot keys present, those slots blank, and the patient and count unchanged |
| Dialogue.PatientStep | app.py:85-90 | `get_paciente` stores the cleaned name, keeps every other key and leads to QTD_MEDS |
| Dialogue.CountStep | app.py:93-104 | `get_qtd_meds` stays in QTD_MEDS with nothing changed exactly when the cleaned text is not "1", "2" or "3"; otherwise it stores the integer in 1..3 that the text spells, keeps every other key and leads to MED_DOSE_1 |
| Dialogue.AnswerStep | app.py:108-117 | a dose or box handler stores the cleaned answer under its key, keeps every other key and leads to the next field of the same slot |
| Dialogue.ScheduleStep | app.py:120-184 | a schedule handler stores the cleaned schedule; it moves to confirmation exactly when the slot is the third or the count is at most the slot, setting every later slot to `""`, and otherwise asks for the dose of the next slot; every other key is kept |
| Dialogue.PatientKeepsShape | app.py:85-90 | `get_paciente` keeps the shape |
| Dialogue.CountKeepsShape | app.py:93-104 | `get_qtd_meds` keeps the shape whether it rejects or stores the count |
| Dialogue.AnswerKeepsShape | app.py:108-117 | the dose and box handlers (of every slot) keep the shape |
| Dialogue.ScheduleKeepsShape | app.py:120-184 | the schedule handlers keep the shape, whether they move to the next slot or to confirmation |
| Dialogue.LastSlotKeepsShape | app.py:120-184 | when confirmation is reached, all nine slot keys are present and every slot above `qtd_meds` holds `""` |
| Dialogue.PayloadAtConfirmation | app.py:201-219 | from the confirmation state the request carries the patient, the stored answers for the slots up to the count, and `""` for the others |
| Dialogue.ConfirmStep | app.py:188-253 | `confirmar` either stays in confirmation with `user_data` untouched, or ends the conversation with `user_data` cleared |
| Dialogue.TextStep | app.py:269-291 | a text message leads only to the states the table and the handlers' return values allow; only the confirmation handler yields a confirmation result |
| Dialogue.Step | app.py:269-291 | one update keeps the stored count an integer |
| Dialogue.Run | app.py:269-291 | a sequence of updates keeps the stored count an integer |
| Dialogue.RunAppend | app.py:269-291 | running two sequences of updates in turn is running their concatenation |
| Dialogue.TextStepKeepsShape | app.py:269-291 | every handler a text message reaches keeps the shape of `user_data` |
| Dialogue.StepKeepsShape | app.py:75-291 | the shape of `user_data` in each state is an invariant of every update |
| Dialogue.RunKeepsShape | app.py:75-291 | the shape of `user_data` is kept along any sequence of updates |
| Dialogue.StepCommands | app.py:269-291 | "/start" restarts from any state with empty `user_data`; "/cancel" ends an active conversation and clears `user_data`; any other command, and "/cancel" outside a conversation, changes nothing |
| Dialogue.StepText | app.py:269-291 | a text message follows the table; an invalid count or an unrecognised answer changes nothing; the dialogue leaves the last medication exactly at the stored count; a request carries the payload built from `user_data` |
| Dialogue.StepEndsEmpty | app.py:195-259 | every exit to END leaves `user_data` empty |
| Dialogue.Session.constructor | app.py:269-291 | a conversation starts outside the dialogue with an empty `user_data` |
| Dialogue.Session.Start | app.py:75-82 | `start` clears `user_data` and returns PACIENTE |
| Dialogue.Session.GetPaciente | app.py:85-90 | `get_paciente` stores the cleaned patient name and returns QTD_MEDS |
| Dialogue.Session.GetQtdMeds | app.py:93-104 | a cleaned text other than "1", "2" or "3" returns QTD_MEDS with `user_data` unchanged; a valid one stores the integer and returns MED_DOSE_1 |
| Dialogue.Session.MedDose | app.py:108-111 | `medN_dose` (and likewise app.py:139-142 and 169-172) stores the cleaned answer under `med_dose_N` and returns N_CAIXAS_N |
| Dialogue.Session.MedCaixas | app.py:114-117 | `medN_caixas` (and likewise app.py:145-148 and 175-178) stores the cleaned answer under `n_caixas_N` and returns POSOLOGIA_N |
| Dialogue.Session.Med1Posologia | app.py:120-135 | with `qtd >= 2` it returns MED_DOSE_2 and changes only `posologia_1`; otherwise slots 2 and 3 are set to `""` and the summary is shown in CONFIRMA |
| Dialogue.Session.Med2Posologia | app.py:151-165 | with `qtd >= 3` it returns MED_DOSE_3 and changes only `posologia_2`; otherwise slot 3 is set to `""`, slots 1 and 2 are kept, and the summary is shown in CONFIRMA |
| Dialogue.Session.Med3Posologia | app.py:181-184 | `med3_posologia` stores the schedule and shows the summary in CONFIRMA |
| Dialogue.Session.Confirmar | app.py:188-253 | an unrecognised answer keeps CONFIRMA and `user_data`; "NÃO"/"NAO" clears and ends without a request; "SIM" sends the payload built from `user_data` and then clears and ends, whatever the outcome, unless the reply makes the handler raise |
| Dialogue.Session.Cancel | app.py:256-259 | `cancel` clears `user_data` and returns END |
| Dialogue.Session.FinishSlot | app.py:120-184 | the schedule handler of slot `i` goes on to slot `i+1` while `i < qtd`, and otherwise goes to confirmation with the later slots set to `""` |
| Dialogue.Session.OnCommand | app.py:269-291 | "/start" enters from any state; "/cancel" ends an active conversation; other commands are ignored |
| Dialogue.Session.OnText | app.py:272-287 | a text message runs the handler of the current state exactly as `TextStep` describes |
| Dialogue.Session.Handle | app.py:269-291 | one update changes the session exactly as `Step` describes and keeps the shape of `user_data` |
| Scenarios.SimConfirms | app.py:189-191 | "SIM" is unchanged by `clean` and confirms |
| Scenarios.NaoCancels | app.py:189-195 | "NAO" is unchanged by `clean` and cancels |
| Scenarios.OneMedicationOpening | app.py:75-104 | "/start", a clean patient name and "1" lead to the first medication's dose question with the name and count stored |
| Scenarios.OneMedicationAnswers | app.py:108-117 | the dose and box count of the one medication are stored in order |
| Scenarios.OneMedicationSchedule | app.py:120-135 | the schedule of the one medication leads to confirmation with slots 2 and 3 set to `""` |
| Scenarios.OneMedicationSummary | app.py:75-135 | the six updates of a one-medication conversation reach confirmation with exactly the answers stored and slots 2 and 3 blank |
| Scenarios.OneMedicationPayload | app.py:201-219 | the request after that conversation carries the answers for medication 1 and `""` for medications 2 and 3 |
| Scenarios.OneMedicationYes | app.py:188-253 | "SIM" at that summary sends that request and ends with `user_data` cleared unless the reply makes the handler raise |
| Scenarios.OneMedicationConfirmed | app.py:75-253 | the whole conversation, ending in "SIM", sends exactly the collected answers |
| Scenarios.OneMedicationNo | app.py:195-198 | "NAO" at that summary ends with `user_data` cleared and no request |
| Scenarios.OneMedicationCancelled | app.py:75-198 | the whole conversation, ending in "NAO", ends with `user_data` cleared and no request |

## Left out

- Telegram I/O is not modelled. This covers `Update`, `reply_text`, `reply_document`, the Markdown parse mode, `Application` and webhook or polling (app.py:266-308). Replies other than the summary are not modelled. The summary is an output of the schedule methods.
- `async`/`await` is not modelled. Each handler is a sequential method on one session, and there is no concurrency in the dialogue's logic.
- `requests.post` and `r.json()` are the function `Backend.post`, which returns either a raised exception or the decoded JSON. The URL, the 90-second timeout and the content of the exception message are not modelled.
- JSON numbers are integers only; floating-point numbers are not modelled.
- `base64.b64decode` is the function `Backend.decode`: `None` when it raises, the bytes otherwise. `BytesIO` and the file name on the document object only pass the bytes and the file name to Telegram.
- Environment configuration and its import-time checks (app.py:24-35), logging and the `health` command are deployment plumbing and are not modelled.
- Text.Upper: maps one character to one character, and keeps unchanged every character outside ASCII, the Latin-1 lower-case letters, `ÿ`, `µ`, the dotless `ı` and the long `ſ`. Python's `str.upper()` also upper-cases Latin Extended, Greek, Cyrillic and other letters, and expands some characters into several (`ß` to "SS", the ligature `ﬁ` to "FI", `ŉ` to "ʼN"), so it need not keep the length. The model leaves all of these out. None of them can upper-case into "SIM", "NÃO" or "NAO", so which answer is recognised is the same.
- Dialogue.Step: assumes that replies never raise. `start`, `get_paciente`, `get_qtd_meds`, the `medN_*` handlers and `cancel` change `user_data` before they await their reply. If Telegram rejected the Markdown of the summary (app.py:134, 164, 183), for instance because an answer holds an unbalanced `*` or `_`, the conversation would stay in POSOLOGIA_N with the schedule stored and the later slots already set to `""`. The model always moves to CONFIRMA.
- Dialogue.ConfirmStep: in `confirmar` every reply comes before the clear (app.py:196-197, 228-229, 233-234, 243-244, 251-252). A reply that raises would leave the conversation in CONFIRMA with `user_data` intact. On "SIM" the request would already have been sent, so a second "SIM" would send it again. One way this could happen is the service-error reply at app.py:233, which echoes the whole reply and can exceed Telegram's message length. The model assumes replies never raise: outside `Crashed` it always ends and clears.
- Dialogue.Step: assumes one `user_data` per conversation. The library keeps `user_data` per user, across chats, so "/start" in one chat clears the answers of the same user's conversation in another chat. The model has one session with its own `user_data`.
- Dialogue.Step: how the Telegram library recognises a command (`filters.COMMAND`, bot mentions, arguments) is not modelled. An update is given already as a command name, a text or something else.
- Dialogue.Step: after "SIM", the case where the service replies with JSON that is not an object is modelled, but not the library's exception logging. `data.get` raises outside the `try`, so the conversation stays in CONFIRMA with `user_data` untouched (outcome `Crashed`).
- UserData.Qtd: requires the stored count to be an integer. `int(...)` would raise on anything else, and every handler that stores the count stores an integer.
- Dialogue.Session: the dictionary is a map over the `Key` datatype rather than over strings. `UserData.Name` gives each key's string, and `UserData.NamesDistinct` shows that the mapping between keys and names is one-to-one.
