/**
  What the text of a schedule selects, form by form: stars, values, ranges, steps
  and lists of them, with numbers or names for the values. Nothing else is accepted.
 */
module CronForms {
  import opened Wrappers
  import opened Text
  import opened Cron

  /** The months from January, number 1, and the days from Sunday, number 0. */
  const MONTHS := ["jan", "feb", "mar", "apr", "may", "jun", "jul", "aug", "sep", "oct", "nov", "dec"]

  const DAYS := ["sun", "mon", "tue", "wed", "thu", "fri", "sat"]

  /** The same letters, in lower or upper case; the dotted capital I and the Kelvin sign count as capitals. */
  predicate Spells(s: string, name: string) {
    |s| == |name| && forall i :: 0 <= i < |s| ==> SpellsChar(s[i], name[i])
  }

  predicate SpellsChar(c: char, letter: char) {
    || c == letter || (c as int + 32 == letter as int && 'A' <= c <= 'Z')
    || (c == 0x130 as char && letter == 'i') || (c == 0x212A as char && letter == 'k')
  }

  /** Digits, with as many zeros before them as one likes and a plus sign or none. */
  predicate Numeral(s: string, v: int) {
    var digits := if s != "" && s[0] == '+' then s[1..] else s;
    digits != "" && AllDigits(digits) && Value(digits) == v
  }

  /** The text stands for `v` in this field: its number, or its name in any case. */
  predicate StandsFor(s: string, f: Field, v: int) {
    || (f.Min() <= v <= f.Max() && Numeral(s, v))
    || (f == Month && 1 <= v <= 12 && Spells(s, MONTHS[v - 1]))
    || (f == Dow && 0 <= v <= 6 && Spells(s, DAYS[v]))
  }

  /** The end of a range can also be zero with a minus sign, as in `0--0`. */
  predicate EndsAt(s: string, f: Field, v: int) {
    || StandsFor(s, f, v)
    || (f.Min() == 0 && v == 0 && |s| > 1 && s[0] == '-' && AllDigits(s[1..]) && Value(s[1..]) == 0)
  }

  datatype Step = One | By(text: string, n: int)

  /** One item of a list. */
  datatype Form =
    | Every(step: Step)
    | Just(at: string, v: int, step: Step)
    | Span(from: string, lo: int, to: string, hi: int, step: Step)

  function StepText(step: Step): string {
    if step.By? then "/" + step.text else ""
  }

  predicate StepOk(step: Step) {
    step.By? ==> 0 < step.n <= MAX_INT && Numeral(step.text, step.n)
  }

  predicate FormOk(form: Form, f: Field) {
    && StepOk(form.step)
    && match form
       case Every(_) => true
       case Just(at, v, _) => StandsFor(at, f, v)
       case Span(from, lo, to, hi, _) => StandsFor(from, f, lo) && EndsAt(to, f, hi) && lo <= hi
  }

  function BaseText(form: Form): string {
    match form
    case Every(_) => "*"
    case Just(at, _, _) => at
    case Span(from, _, to, _, _) => from + "-" + to
  }

  function FormText(form: Form): string {
    BaseText(form) + StepText(form.step)
  }

  /** From where to where the form selects; a single value with a step goes on to the end of the field. */
  function Low(form: Form, f: Field): int {
    match form
    case Every(_) => f.Min()
    case Just(_, v, _) => v
    case Span(_, lo, _, _, _) => lo
  }

  function High(form: Form, f: Field): int {
    match form
    case Every(_) => f.Max()
    case Just(_, v, step) => if step.By? then f.Max() else v
    case Span(_, _, _, hi, _) => hi
  }

  function StepOr1(step: Step): int {
    if step.By? then step.n else 1
  }

  /** The form selects `u`: it is in range, and a multiple of the step from its lower end. */
  ghost predicate FormSelects(form: Form, f: Field, u: int)
    requires FormOk(form, f)
  {
    Low(form, f) <= u <= High(form, f) && (u - Low(form, f)) % StepOr1(form.step) == 0
  }

  // ------------------------------------------------------------------- single values

  predicate IsWordChar(c: char) {
    IsDigit(c) || 'a' <= c <= 'z' || 'A' <= c <= 'Z' || c == '+' || c == 0x130 as char || c == 0x212A as char
  }

  /** Names have three letters, and the first and last two tell them apart. */
  lemma NameShape(f: Field, k: nat)
    requires f == Month || f == Dow
    requires k < |f.Names()|
    ensures var name := f.Names()[k];
      |name| == 3 && 'a' <= name[0] <= 'z' && 'a' <= name[1] <= 'z' && 'a' <= name[2] <= 'z'
  {
  }

  function Code(name: string): int {
    if |name| == 3 then name[0] as int * 0x10000 + name[1] as int * 0x100 + name[2] as int else 0
  }

  /** The codes of the names are all different. */
  lemma NamesDiffer(f: Field, j: nat, k: nat)
    requires (f == Month || f == Dow) && j < |f.Names()| && k < |f.Names()| && f.Names()[j] == f.Names()[k]
    ensures j == k
  {
    NameCount(f);
    assert Code(f.Names()[j]) == Code(f.Names()[k]);
    if f == Dow {
      DayCode(j);
      DayCode(k);
    } else {
      MonthCode(j);
      MonthCode(k);
    }
  }

  lemma DayCode(k: nat)
    requires k < 7
    ensures Code(Dow.Names()[k]) == [0x73756e, 0x6d6f6e, 0x747565, 0x776564, 0x746875, 0x667269, 0x736174][k]
  {
  }

  lemma MonthCode(k: nat)
    requires k < 12
    ensures Code(Month.Names()[k]) ==
      [0x6a616e, 0x666562, 0x6d6172, 0x617072, 0x6d6179, 0x6a756e, 0x6a756c, 0x617567, 0x736570, 0x6f6374, 0x6e6f76,
       0x646563][k]
  {
  }

  lemma NameChars(s: string, f: Field, k: nat)
    requires (f == Month || f == Dow) && k < |f.Names()| && Spells(s, f.Names()[k])
    ensures s != "" && Lower(s) == f.Names()[k] && forall i :: 0 <= i < |s| ==> IsWordChar(s[i])
  {
    hide Field.Names;
    NameShape(f, k);
    var name := f.Names()[k];
    forall i | 0 <= i < |s| ensures LowerChar(s[i]) == name[i] && IsWordChar(s[i]) {
      assert i == 0 || i == 1 || i == 2;
    }
    assert Lower(s) == name;
  }

  lemma NameRead(s: string, f: Field, k: nat)
    requires (f == Month || f == Dow) && k < |f.Names()| && Spells(s, f.Names()[k])
    ensures ParseValue(s, f) == Ok(f.Min() + k)
  {
    hide Field.Names, Spells;
    NameChars(s, f, k);
    var p := Position(Lower(s), f.Names());
    if p < |f.Names()| {
      NamesDiffer(f, p, k);
    }
  }

  lemma NumeralAtoi(s: string, v: int)
    requires Numeral(s, v)
    ensures s != "" && (IsDigit(s[0]) || s[0] == '+') && forall i :: 0 <= i < |s| ==> IsWordChar(s[i])
    ensures Atoi(s) == if v <= MAX_INT then Some(v) else None
  {
    hide Value;
    if s[0] == '+' {
      forall i | 0 <= i < |s| ensures IsWordChar(s[i]) {
        if i > 0 {
          assert s[i] == s[1..][i - 1];
        }
      }
    } else {
      assert IsDigit(s[0]);
    }
  }

  lemma NumeralRead(s: string, f: Field, v: int)
    requires f.Min() <= v <= f.Max() && Numeral(s, v)
    ensures ParseValue(s, f) == Ok(v) && s != "" && forall i :: 0 <= i < |s| ==> IsWordChar(s[i])
  {
    hide Field.Names, Lower, Position, Atoi, Numeral, IsWordChar;
    NumeralAtoi(s, v);
    NotName(s, f);
  }

  lemma EndRead(s: string, f: Field, v: int)
    requires EndsAt(s, f, v)
    ensures ParseValue(s, f) == Ok(v) && s != "" && forall i :: 0 <= i < |s| ==> s[i] == '-' || IsWordChar(s[i])
  {
    hide StandsFor, ParseValue, IsWordChar;
    if StandsFor(s, f, v) {
      ValueRead(s, f, v);
    } else {
      MinusZero(s, f);
    }
  }

  lemma MinusZero(s: string, f: Field)
    requires f.Min() == 0 && |s| > 1 && s[0] == '-' && AllDigits(s[1..]) && Value(s[1..]) == 0
    ensures ParseValue(s, f) == Ok(0) && forall i :: 0 <= i < |s| ==> s[i] == '-' || IsWordChar(s[i])
  {
    hide Field.Names, Value;
    assert Lower(s)[0] == '-';
    forall k | 0 <= k < |f.Names()| ensures f.Names()[k] != Lower(s) {
      NameCount(f);
      NameShape(f, k);
    }
    forall i | 0 < i < |s| ensures IsWordChar(s[i]) {
      assert s[i] == s[1..][i - 1];
    }
  }

  lemma ValueRead(s: string, f: Field, v: int)
    requires StandsFor(s, f, v)
    ensures ParseValue(s, f) == Ok(v) && s != "" && forall i :: 0 <= i < |s| ==> IsWordChar(s[i])
  {
    hide Position, Spells, Lower, ParseValue, Numeral;
    if f.Min() <= v <= f.Max() && Numeral(s, v) {
      NumeralRead(s, f, v);
    } else {
      NamesAre();
      NameRead(s, f, v - f.Min());
      NameChars(s, f, v - f.Min());
    }
  }

  lemma NamesAre()
    ensures Month.Names() == MONTHS && Dow.Names() == DAYS
  {
  }

  lemma NameCount(f: Field)
    ensures |f.Names()| == if f == Month then 12 else if f == Dow then 7 else 0
  {
  }

  // -------------------------------------------------------------------- single items

  lemma BaseChars(form: Form, f: Field)
    requires FormOk(form, f)
    ensures BaseText(form) != "" && '/' !in BaseText(form) && ',' !in BaseText(form)
    ensures forall c :: c in BaseText(form) ==> c == '*' || c == '-' || IsWordChar(c)
  {
    hide StandsFor, EndsAt, StepOk;
    match form
    case Every(_) =>
    case Just(at, v, _) => ValueRead(at, f, v);
    case Span(from, lo, to, hi, _) =>
      ValueRead(from, f, lo);
      EndRead(to, f, hi);
  }

  lemma RangeRead(form: Form, f: Field)
    requires FormOk(form, f)
    ensures ParseRange(BaseText(form), form.step.By?, f) == Ok((Low(form, f), High(form, f)))
  {
    hide StandsFor, EndsAt, StepOk, ParseValue;
    match form
    case Every(_) =>
    case Just(at, v, _) =>
      ValueRead(at, f, v);
      assert at[0] != '*' && '-' !in at;
    case Span(from, lo, to, hi, _) =>
      ValueRead(from, f, lo);
      EndRead(to, f, hi);
      var s := from + "-" + to;
      assert '-' !in from;
      IndexPast(from, to, '-');
      assert s[..|from|] == from && s[|from| + 1..] == to && s[|from|] == '-';
  }

  lemma StepRead(base: string, step: Step)
    requires '/' !in base && StepOk(step)
    ensures var part := base + StepText(step); var slash := Index(part, '/');
      && slash == |base| && part[..slash] == base && (slash < |part| <==> step.By?)
      && ParseStep(part, slash) == Ok(StepOr1(step))
  {
    hide Numeral, Atoi, IsWordChar;
    var part := base + StepText(step);
    if step.By? {
      assert part == base + ['/'] + step.text;
      IndexPast(base, step.text, '/');
      assert part[|base| + 1..] == step.text;
      NumeralAtoi(step.text, step.n);
    } else {
      assert part == base;
    }
  }

  /** The parser takes a form for what it stands for. */
  lemma FormRead(form: Form, f: Field)
    requires FormOk(form, f)
    ensures ParseItem(FormText(form), f) == Ok(Item(Low(form, f), High(form, f), StepOr1(form.step)))
  {
    hide FormOk, BaseText, StepText, Low, High, ParseStep, ParseRange, StepOr1, StepOk, Item.Proper;
    StepFits(form, f);
    BaseChars(form, f);
    StepRead(BaseText(form), form.step);
    RangeRead(form, f);
  }

  lemma StepFits(form: Form, f: Field)
    requires FormOk(form, f)
    ensures StepOk(form.step) && 0 < StepOr1(form.step) <= MAX_INT
  {
  }

  lemma ItemSelects(item: Item, u: int)
    requires item.step > 0
    ensures item.Selects(u) <==> item.lo <= u <= item.hi && (u - item.lo) % item.step == 0
  {
    if item.Selects(u) {
      var n :| n >= 0 && item.At(n) == u;
      AtGrows(item, 0, n);
      MultipleOf(n, item.step);
    }
    if item.lo <= u <= item.hi && (u - item.lo) % item.step == 0 {
      var n := (u - item.lo) / item.step;
      assert item.At(n) == u;
    }
  }

  lemma MultipleOf(n: int, step: int)
    requires step > 0
    ensures (n * step) % step == 0
  {
    var x := n * step;
    var k, r := n - x / step, x % step;
    assert k * step == r;
    assert k > 0 ==> k * step >= step;
    assert k < 0 ==> k * step <= -step;
  }

  /** A range the wrong way round is refused. */
  lemma ReversedRefused(from: string, lo: int, to: string, hi: int, f: Field)
    requires StandsFor(from, f, lo) && StandsFor(to, f, hi) && lo > hi
    ensures ParseItem(from + "-" + to, f) == Err(Reversed)
  {
    hide StandsFor, ParseValue;
    ValueRead(from, f, lo);
    ValueRead(to, f, hi);
    var s := from + "-" + to;
    assert '-' !in from && '/' !in s;
    IndexPast(from, to, '-');
    assert s[..|from|] == from && s[|from| + 1..] == to && s[|from|] == '-' && s[..|s|] == s;
    assert s[0] != '*';
  }

  // --------------------------------------------------------------------------- fields

  function FormTexts(forms: seq<Form>): seq<string> {
    seq(|forms|, k requires 0 <= k < |forms| => FormText(forms[k]))
  }

  ghost predicate FieldForms(forms: seq<Form>, f: Field) {
    forms != [] && forall k :: 0 <= k < |forms| ==> FormOk(forms[k], f)
  }

  ghost function FieldText(forms: seq<Form>, f: Field): string
    requires FieldForms(forms, f)
  {
    Join(FormTexts(forms), ',')
  }

  /** Some form of the list selects `u`. */
  ghost predicate SomeSelects(forms: seq<Form>, f: Field, u: int)
    requires FieldForms(forms, f)
  {
    exists k :: 0 <= k < |forms| && FormSelects(forms[k], f, u)
  }

  lemma FormChars(form: Form, f: Field)
    requires FormOk(form, f)
    ensures FormText(form) != "" && ',' !in FormText(form)
    ensures forall c :: c in FormText(form) ==> !IsSpace(c)
    ensures FormText(form) == "*" <==> form == Every(One)
  {
    hide FormOk, BaseText, Numeral;
    StepFits(form, f);
    BaseChars(form, f);
    var base, tail := BaseText(form), StepText(form.step);
    if form.step.By? {
      NumeralAtoi(form.step.text, form.step.n);
      assert FormText(form)[|base|] == '/';
    } else {
      assert FormText(form) == base;
      BaseStar(form, f);
    }
  }

  lemma BaseStar(form: Form, f: Field)
    requires FormOk(form, f)
    ensures BaseText(form) == "*" <==> form.Every?
  {
    hide StandsFor, EndsAt, StepOk;
    match form
    case Every(_) =>
    case Just(at, v, _) =>
      ValueRead(at, f, v);
      assert IsWordChar(at[0]);
    case Span(from, lo, to, hi, _) =>
      ValueRead(from, f, lo);
      assert IsWordChar(from[0]) && (from + "-" + to)[0] == from[0];
  }

  lemma FieldSplits(forms: seq<Form>, f: Field)
    requires FieldForms(forms, f)
    ensures Split(FieldText(forms, f), ',') == FormTexts(forms)
  {
    hide FormOk, FormText, Join, Split;
    forall k | 0 <= k < |forms| ensures ',' !in FormTexts(forms)[k] {
      FormChars(forms[k], f);
    }
    SplitJoin(FormTexts(forms), ',');
  }

  /** A list of forms is well formed and selects what some of them does. */
  lemma FieldFormsRead(forms: seq<Form>, f: Field, u: int)
    requires FieldForms(forms, f)
    ensures FieldOk(FieldText(forms, f), f)
    ensures FieldSelects(FieldText(forms, f), f, u) <==> SomeSelects(forms, f, u)
  {
    hide FormOk, FormText, ParseItem, Split, FieldText, Item.Selects, Low, High;
    var field := FieldText(forms, f);
    FieldSplits(forms, f);
    forall k | 0 <= k < |forms|
      ensures ParseItem(Split(field, ',')[k], f)
        == Ok(Item(Low(forms[k], f), High(forms[k], f), StepOr1(forms[k].step)))
      ensures Item(Low(forms[k], f), High(forms[k], f), StepOr1(forms[k].step)).Selects(u)
        <==> FormSelects(forms[k], f, u)
    {
      FormRead(forms[k], f);
      StepFits(forms[k], f);
      ItemSelects(Item(Low(forms[k], f), High(forms[k], f), StepOr1(forms[k].step)), u);
    }
    if SomeSelects(forms, f, u) {
      var k :| 0 <= k < |forms| && FormSelects(forms[k], f, u);
      assert ItemOf(field, f, Item(Low(forms[k], f), High(forms[k], f), StepOr1(forms[k].step)));
    }
  }

  /** No step reaches the size from where on additions wrap around to the range. */
  ghost predicate Modest(forms: seq<Form>, f: Field)
    requires FieldForms(forms, f)
  {
    forall k :: 0 <= k < |forms| ==> Low(forms[k], f) < 2 * (MAX_INT + 1 - StepOr1(forms[k].step))
  }

  lemma FieldFormsExact(forms: seq<Form>, f: Field)
    requires FieldForms(forms, f) && Modest(forms, f)
    ensures FieldExact(FieldText(forms, f), f)
  {
    hide FormOk, FormText, ParseItem, Split, FieldText, Low, High;
    var field := FieldText(forms, f);
    FieldSplits(forms, f);
    forall item | ItemOf(field, f, item) ensures item.Exact() {
      var k :| 0 <= k < |forms| && ParseItem(Split(field, ',')[k], f) == Ok(item);
      FormRead(forms[k], f);
    }
  }

  // ------------------------------------------------------------------- whole schedules

  /** The forms of the five fields. */
  datatype Columns = Columns(minute: seq<Form>, hour: seq<Form>, dom: seq<Form>, month: seq<Form>, dow: seq<Form>) {
    ghost predicate Valid() {
      && FieldForms(minute, Minute) && FieldForms(hour, Hour) && FieldForms(dom, Dom) && FieldForms(month, Month)
      && FieldForms(dow, Dow)
    }

    ghost predicate Modests()
      requires Valid()
    {
      Modest(minute, Minute) && Modest(hour, Hour) && Modest(dom, Dom) && Modest(month, Month) && Modest(dow, Dow)
    }

    ghost function Texts(): seq<string>
      requires Valid()
    {
      [FieldText(minute, Minute), FieldText(hour, Hour), FieldText(dom, Dom),
       FieldText(month, Month), FieldText(dow, Dow)]
    }

    /** The schedule these forms stand for: what they select, with 7 for Sunday too, and which day fields are a star. */
    ghost predicate StandFor(s: Schedule)
      requires Valid()
    {
      && (forall v :: v in s.minute <==> SomeSelects(minute, Minute, v))
      && (forall v :: v in s.hour <==> SomeSelects(hour, Hour, v))
      && (forall v :: v in s.dom <==> SomeSelects(dom, Dom, v))
      && (forall v :: v in s.month <==> SomeSelects(month, Month, v))
      && (forall v :: v in s.dow <==> (SomeSelects(dow, Dow, v) && v != 7) || (v == 0 && SomeSelects(dow, Dow, 7)))
      && (s.domStar <==> dom == [Every(One)]) && (s.dowStar <==> dow == [Every(One)])
    }
  }

  lemma FieldWord(forms: seq<Form>, f: Field)
    requires FieldForms(forms, f)
    ensures IsWord(FieldText(forms, f))
  {
    hide FormOk, FormText, Join, IsSpace;
    var texts, text := FormTexts(forms), FieldText(forms, f);
    forall k | 0 <= k < |texts| ensures texts[k] != "" && forall c :: c in texts[k] ==> !IsSpace(c) {
      FormChars(forms[k], f);
    }
    JoinStarts(texts, ',');
    forall i | 0 <= i < |text| ensures !IsSpace(text[i]) {
      JoinChars(texts, ',', text[i]);
      CommaNoSpace();
    }
  }

  lemma CommaNoSpace()
    ensures !IsSpace(',')
  {
  }

  lemma FieldStar(forms: seq<Form>, f: Field)
    requires FieldForms(forms, f)
    ensures FieldText(forms, f) == "*" <==> forms == [Every(One)]
  {
    hide FormOk, FormText, Join, Split, FieldText;
    FieldSplits(forms, f);
    FormChars(forms[0], f);
    StarSplit();
    assert |FormTexts(forms)| == |forms| && FormTexts(forms)[0] == FormText(forms[0]);
    if FieldText(forms, f) == "*" {
      assert FormTexts(forms) == ["*"];
      assert forms == [forms[0]];
    }
    if forms == [Every(One)] {
      OneText(forms, f);
    }
  }

  lemma StarSplit()
    ensures Split("*", ',') == ["*"]
  {
    SplitWhole("*", ',');
  }

  lemma OneText(forms: seq<Form>, f: Field)
    requires FieldForms(forms, f) && |forms| == 1
    ensures FieldText(forms, f) == FormText(forms[0])
  {
    hide FormOk;
  }

  /** One way to write it: the fields with a space between. */
  lemma ColumnsSplit(c: Columns)
    requires c.Valid()
    ensures Fields(Join(c.Texts(), ' ')) == c.Texts()
  {
    hide FieldForms, FieldText, Fields, Join;
    FieldWord(c.minute, Minute);
    FieldWord(c.hour, Hour);
    FieldWord(c.dom, Dom);
    FieldWord(c.month, Month);
    FieldWord(c.dow, Dow);
    FieldsJoin(c.Texts());
  }

  lemma FieldMeans(forms: seq<Form>, f: Field)
    requires FieldForms(forms, f)
    ensures FieldOk(FieldText(forms, f), f)
    ensures forall u :: FieldSelects(FieldText(forms, f), f, u) <==> SomeSelects(forms, f, u)
    ensures FieldText(forms, f) == "*" <==> forms == [Every(One)]
  {
    hide FieldForms, FieldText, FieldSelects, SomeSelects, FieldOk;
    FieldStar(forms, f);
    FieldFormsRead(forms, f, 0);
    forall u ensures FieldSelects(FieldText(forms, f), f, u) <==> SomeSelects(forms, f, u) {
      FieldFormsRead(forms, f, u);
    }
  }

  /** The text of a schedule means what its forms stand for. */
  lemma TextMeans(expr: string, c: Columns, s: Schedule)
    requires c.Valid() && Fields(expr) == c.Texts()
    ensures Reads(expr, s) <==> c.StandFor(s)
  {
    hide FieldForms, FieldText, FieldSelects, SomeSelects, FieldOk, Fields;
    FieldMeans(c.minute, Minute);
    FieldMeans(c.hour, Hour);
    FieldMeans(c.dom, Dom);
    FieldMeans(c.month, Month);
    FieldMeans(c.dow, Dow);
  }

  /**
    The parser makes of it exactly the schedule that its forms stand for, if no
    step reaches the size from where on additions wrap around to the range.
   */
  lemma ParsedForms(expr: string, c: Columns, s: Schedule)
    requires c.Valid() && c.Modests() && Fields(expr) == c.Texts()
    ensures Builds(expr, s) <==> c.StandFor(s)
  {
    hide FieldForms, FieldText, Fields, Modest, FieldExact, Columns.StandFor, Builds, Reads;
    FieldFormsExact(c.minute, Minute);
    FieldFormsExact(c.hour, Hour);
    FieldFormsExact(c.dom, Dom);
    FieldFormsExact(c.month, Month);
    FieldFormsExact(c.dow, Dow);
    BuildsReads(expr, s);
    TextMeans(expr, c, s);
  }

  // --------------------------------------------------------------- nothing else is accepted

  lemma NameIs(s: string, f: Field, k: nat)
    requires (f == Month || f == Dow) && k < |f.Names()| && Lower(s) == f.Names()[k]
    ensures Spells(s, f.Names()[k])
  {
    hide Field.Names;
    NameShape(f, k);
    forall i | 0 <= i < |s| ensures SpellsChar(s[i], f.Names()[k][i]) {
      assert Lower(s)[i] == LowerChar(s[i]);
    }
  }

  lemma AtoiIs(s: string, v: int)
    requires Atoi(s) == Some(v) && v >= 0
    ensures Numeral(s, v) || (v == 0 && |s| > 1 && s[0] == '-' && AllDigits(s[1..]) && Value(s[1..]) == 0)
  {
  }

  lemma ValueIs(s: string, f: Field)
    requires ParseValue(s, f).Ok?
    ensures EndsAt(s, f, ParseValue(s, f).value) && ('-' !in s ==> StandsFor(s, f, ParseValue(s, f).value))
  {
    hide Field.Names, Lower, Spells, Numeral, Atoi, Value;
    var k := Position(Lower(s), f.Names());
    NameCount(f);
    if k < |f.Names()| {
      NamesAre();
      NameIs(s, f, k);
    } else {
      AtoiIs(s, ParseValue(s, f).value);
    }
  }

  lemma StepIs(part: string, slash: nat) returns (step: Step)
    requires slash <= |part| && ParseStep(part, slash).Ok? && (slash < |part| ==> part[slash] == '/')
    ensures StepOk(step) && part == part[..slash] + StepText(step) && StepOr1(step) == ParseStep(part, slash).value
    ensures step.By? <==> slash < |part|
  {
    hide Atoi, Numeral, Value;
    if slash == |part| {
      step := One;
      assert part[..slash] == part;
    } else {
      step := By(part[slash + 1..], ParseStep(part, slash).value);
      AtoiIs(step.text, step.n);
      assert part == part[..slash] + ['/'] + part[slash + 1..];
    }
  }

  lemma RangeIs(range: string, step: Step, f: Field) returns (form: Form)
    requires StepOk(step) && ParseRange(range, step.By?, f).Ok?
    ensures FormOk(form, f) && BaseText(form) == range && form.step == step
  {
    hide StepOk, StandsFor, EndsAt, ParseValue;
    if range == "*" {
      form := Every(step);
    } else if '-' in range {
      var dash := Index(range, '-');
      var from, to := range[..dash], range[dash + 1..];
      ValueIs(from, f);
      ValueIs(to, f);
      form := Span(from, ParseValue(from, f).value, to, ParseValue(to, f).value, step);
      assert range == from + "-" + to;
    } else {
      ValueIs(range, f);
      form := Just(range, ParseValue(range, f).value, step);
    }
  }

  /** Whatever is accepted as an item is a form. */
  lemma ItemIs(part: string, f: Field) returns (form: Form)
    requires ParseItem(part, f).Ok?
    ensures FormOk(form, f) && FormText(form) == part
  {
    hide ParseStep, ParseRange, FormOk, BaseText, StepText, StepOk, StepOr1, Item.Proper;
    var slash := Index(part, '/');
    var step := StepIs(part, slash);
    form := RangeIs(part[..slash], step, f);
  }

  lemma {:induction false} PartsAre(parts: seq<string>, f: Field) returns (forms: seq<Form>)
    requires forall k :: 0 <= k < |parts| ==> ParseItem(parts[k], f).Ok?
    ensures |forms| == |parts|
    ensures forall k :: 0 <= k < |parts| ==> FormOk(forms[k], f) && FormText(forms[k]) == parts[k]
    decreases |parts|
  {
    hide ParseItem, FormOk, FormText;
    if parts == [] {
      forms := [];
    } else {
      var form := ItemIs(parts[0], f);
      var rest := PartsAre(parts[1..], f);
      forms := [form] + rest;
    }
  }

  lemma FieldIs(field: string, f: Field) returns (forms: seq<Form>)
    requires FieldOk(field, f)
    ensures FieldForms(forms, f) && FieldText(forms, f) == field
  {
    hide ParseItem, FormOk, FormText, Join, Split;
    forms := PartsAre(Split(field, ','), f);
    assert FormTexts(forms) == Split(field, ',');
    JoinSplit(field, ',');
  }

  lemma TextIs(expr: string) returns (c: Columns)
    requires Accepts(expr)
    ensures c.Valid() && c.Texts() == Fields(expr)
  {
    hide FieldOk, FieldForms, FieldText, Fields;
    var fields := Fields(expr);
    assert forall i :: 0 <= i < 5 ==> FieldOk(fields[i], FIELDS[i]);
    var minute := FieldIs(fields[0], FIELDS[0]);
    var hour := FieldIs(fields[1], FIELDS[1]);
    var dom := FieldIs(fields[2], FIELDS[2]);
    var month := FieldIs(fields[3], FIELDS[3]);
    var dow := FieldIs(fields[4], FIELDS[4]);
    c := Columns(minute, hour, dom, month, dow);
  }

  /** A text is accepted if and only if it is five fields of forms. */
  lemma AcceptsForms(expr: string)
    ensures Accepts(expr) <==> exists c: Columns :: c.Valid() && c.Texts() == Fields(expr)
  {
    hide FieldOk, FieldForms, FieldText, Fields, FieldSelects, SomeSelects;
    if Accepts(expr) {
      var c := TextIs(expr);
    }
    if c: Columns :| c.Valid() && c.Texts() == Fields(expr) {
      FieldMeans(c.minute, Minute);
      FieldMeans(c.hour, Hour);
      FieldMeans(c.dom, Dom);
      FieldMeans(c.month, Month);
      FieldMeans(c.dow, Dow);
    }
  }
}
