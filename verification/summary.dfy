/** `summary_text` (app.py:58-72): the confirmation message listing the
    patient and one block of three lines per medication. */
module Summary {
  import opened Text
  import opened UserData

  const HEADER: string := "*CONFIRMAR RECEITA (1\U{2013}3 medicamentos)*\n"
  const FOOTER: string := "Responda:\n\U{2705} *SIM* para gerar o PDF\n\U{274C} *N\U{C3}O* para cancelar"

  function PatientLine(ud: UserData): string
  {
    "*Paciente:* " + Show(Get(ud, PACIENTE_KEY, Str(""))) + "\n"
  }

  /** The three lines for medication `i`; a field never stored shows as
      empty. */
  function MedBlock(ud: UserData, i: int): seq<string>
  {
    [ "*Medicamento " + Decimal(i) + ":* " + Show(Get(ud, MedKey(Dose, i), Str(""))),
      "*N\U{BA} de caixas " + Decimal(i) + ":* " + Show(Get(ud, MedKey(Caixas, i), Str(""))),
      "*Posologia " + Decimal(i) + ":* " + Show(Get(ud, MedKey(Posologia, i), Str(""))) + "\n" ]
  }

  /** The lines the loop `for i in range(from, q + 1)` appends. */
  function MedLines(ud: UserData, from: int, q: int): seq<string>
    decreases q - from + 1
  {
    if from > q then [] else MedBlock(ud, from) + MedLines(ud, from + 1, q)
  }

  /** The header, the patient line, three lines for each of the `get_qtd`
      medications (none when the count is not positive) and the closing
      instructions (see `SummaryEnds`). */
  function SummaryLines(ud: UserData): (lines: seq<string>)
    requires QtdIsInt(ud)
    ensures |lines| == 3 + 3 * (if Qtd(ud) > 0 then Qtd(ud) else 0)
  {
    MedLinesShape(ud, 1, Qtd(ud));
    [HEADER, PatientLine(ud)] + MedLines(ud, 1, Qtd(ud)) + [FOOTER]
  }

  /** `summary_text(context)`: the lines joined by newlines, so the text
      opens with the header and the patient line and closes with the
      instructions (see `SummaryLines`). */
  function SummaryText(ud: UserData): (text: string)
    requires QtdIsInt(ud)
    ensures var lines := SummaryLines(ud);
      && lines[0] + "\n" + lines[1] + "\n" <= text
      && |lines[|lines| - 1]| <= |text| && text[|text| - |lines[|lines| - 1]|..] == lines[|lines| - 1]
  {
    JoinOpens("\n", SummaryLines(ud));
    JoinEndsWithLast("\n", SummaryLines(ud));
    Join("\n", SummaryLines(ud))
  }

  /** Number of indices in `from..q`. */
  function Span(from: int, q: int): nat
  {
    if q >= from then q - from + 1 else 0
  }

  /** The loop emits one block per index, in order. */
  lemma {:induction false} MedLinesShape(ud: UserData, from: int, q: int)
    ensures |MedLines(ud, from, q)| == 3 * Span(from, q)
    ensures forall k :: from <= k <= q ==>
      MedLines(ud, from, q)[3 * (k - from) .. 3 * (k - from) + 3] == MedBlock(ud, k)
    decreases q - from + 1
  {
    if from <= q {
      var rest := MedLines(ud, from + 1, q);
      MedLinesShape(ud, from + 1, q);
      var all := MedLines(ud, from, q);
      assert all == MedBlock(ud, from) + rest;
      assert all[..3] == MedBlock(ud, from);
      forall k | from < k <= q
        ensures all[3 * (k - from) .. 3 * (k - from) + 3] == MedBlock(ud, k)
      {
        assert all[3 * (k - from) .. 3 * (k - from) + 3]
            == rest[3 * (k - from - 1) .. 3 * (k - from - 1) + 3];
      }
    }
  }

  /** The summary opens with the header and the patient line and closes
      with the instructions. */
  lemma SummaryEnds(ud: UserData)
    requires QtdIsInt(ud)
    ensures var lines := SummaryLines(ud);
      lines[0] == HEADER && lines[1] == PatientLine(ud) && lines[|lines| - 1] == FOOTER
  {
  }

  /** Medication `k` is listed in lines `3k - 1` to `3k + 1`, in order. */
  lemma SummaryBlocks(ud: UserData)
    requires QtdIsInt(ud)
    ensures |SummaryLines(ud)| == 3 + 3 * (if Qtd(ud) > 0 then Qtd(ud) else 0)
    ensures forall k :: 1 <= k <= Qtd(ud) ==> SummaryLines(ud)[3 * k - 1 .. 3 * k + 2] == MedBlock(ud, k)
  {
    var q := Qtd(ud);
    var meds := MedLines(ud, 1, q);
    MedLinesShape(ud, 1, q);
    var lines := SummaryLines(ud);
    assert lines[2..|lines| - 1] == meds;
    forall k | 1 <= k <= q ensures lines[3 * k - 1 .. 3 * k + 2] == MedBlock(ud, k) {
      assert lines[3 * k - 1 .. 3 * k + 2] == lines[2..|lines| - 1][3 * (k - 1) .. 3 * (k - 1) + 3];
    }
  }

  /** With no count stored the summary lists exactly one medication. */
  lemma SummaryWithoutCount(ud: UserData)
    requires QTD_MEDS_KEY !in ud
    ensures |SummaryLines(ud)| == 6
    ensures SummaryLines(ud)[2..5] == MedBlock(ud, 1)
  {
    SummaryBlocks(ud);
  }
}
