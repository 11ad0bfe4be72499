/** The per-conversation dictionary `context.user_data` as the dialogue uses
    it: its values, its keys, and the reads `get` and `get_qtd` make of it. */
module UserData {
  import opened Text

  /** A value the handlers store: every answer is a string, the medication
      count is an int. */
  datatype Value = Str(s: string) | Int(n: int)

  /** The three fields asked for each medication. */
  datatype Field = Dose | Caixas | Posologia

  /** A medication slot: the dialogue has exactly three. */
  type Slot = i: int | 1 <= i <= 3 witness 1

  /** The keys the dialogue stores under: "paciente", "qtd_meds" and the
      per-medication keys f"med_dose_{i}", f"n_caixas_{i}" and
      f"posologia_{i}". `Name` gives the string itself; `NamesDistinct`
      shows that different keys have different names, so a map over keys is
      the dictionary over their names. */
  datatype Key = PacienteKey | QtdMedsKey | MedKey(field: Field, slot: int)

  type UserData = map<Key, Value>

  const PACIENTE_KEY: Key := PacienteKey
  const QTD_MEDS_KEY: Key := QtdMedsKey

  function Prefix(f: Field): string
  {
    match f
    case Dose => "med_dose_"
    case Caixas => "n_caixas_"
    case Posologia => "posologia_"
  }

  /** The string a key stands for. */
  function Name(k: Key): string
  {
    match k
    case PacienteKey => "paciente"
    case QtdMedsKey => "qtd_meds"
    case MedKey(f, i) => Prefix(f) + Decimal(i)
  }

  /** Order of the fields within a slot. */
  function FieldIndex(f: Field): int
  {
    match f
    case Dose => 0
    case Caixas => 1
    case Posologia => 2
  }

  /** How many slot fields the dialogue has collected before it asks for
      field `f` of slot `i`: slot and field can be read back from it. */
  function Position(i: Slot, f: Field): (p: int)
    ensures 0 <= p < 9
    ensures p / 3 + 1 == i && p % 3 == FieldIndex(f)
  {
    3 * (i - 1) + FieldIndex(f)
  }

  /** The nine slot fields are asked one at a time, in order: dose, boxes
      and schedule of slot 1, then of slot 2, then of slot 3. */
  lemma PositionOrder(i: Slot, f: Field, j: Slot, g: Field)
    ensures Position(i, f) == Position(j, g) <==> i == j && f == g
    ensures Position(i, Dose) + 1 == Position(i, Caixas)
    ensures Position(i, Caixas) + 1 == Position(i, Posologia)
    ensures i < 3 ==> Position(i, Posologia) + 1 == Position(i + 1, Dose)
  {
    if Position(i, f) == Position(j, g) {
      assert FieldIndex(f) == FieldIndex(g);
    }
  }

  /** `user_data.get(k, default)` */
  function Get(ud: UserData, k: Key, default: Value): (v: Value)
    ensures k in ud ==> v == ud[k]
    ensures k !in ud ==> v == default
  {
    if k in ud then ud[k] else default
  }

  /** `b` agrees with `a` on key `k`: present in both or in neither, with
      the same value. */
  ghost predicate Kept(a: UserData, b: UserData, k: Key)
  {
    (k in a <==> k in b) && (k in a ==> b[k] == a[k])
  }

  /** How an f-string renders a stored value. */
  function Show(v: Value): string
  {
    match v
    case Str(s) => s
    case Int(n) => Decimal(n)
  }

  /** `int(...)` in `get_qtd` needs the stored count to be an int. */
  predicate QtdIsInt(ud: UserData)
  {
    QTD_MEDS_KEY in ud ==> ud[QTD_MEDS_KEY].Int?
  }

  /** `get_qtd` (app.py:54-55): the stored count, 1 when none is stored. */
  function Qtd(ud: UserData): (q: int)
    requires QtdIsInt(ud)
    ensures QTD_MEDS_KEY !in ud ==> q == 1
    ensures QTD_MEDS_KEY in ud ==> Int(q) == ud[QTD_MEDS_KEY]
  {
    match Get(ud, QTD_MEDS_KEY, Int(1))
    case Int(n) => n
  }

  /** A key the dialogue uses: the two fixed ones and the nine of the
      slots. */
  predicate DialogueKey(k: Key)
  {
    k.MedKey? ==> 1 <= k.slot <= 3
  }

  /** The eleven keys the dialogue uses have eleven different names. */
  lemma NamesDistinct(k: Key, l: Key)
    requires DialogueKey(k) && DialogueKey(l)
    ensures Name(k) == Name(l) <==> k == l
  {
    if Name(k) == Name(l) {
      var m, n := Name(k), Name(l);
      if k.MedKey? {
        assert Decimal(k.slot) == [DigitChar(k.slot)];
      }
      if l.MedKey? {
        assert Decimal(l.slot) == [DigitChar(l.slot)];
      }
      // the lengths, the first two characters and the last one tell the
      // eleven names apart
      assert |m| == |n| && m[0] == n[0] && m[1] == n[1] && m[|m| - 1] == n[|n| - 1];
    }
  }
}
