/**
 * The product form's validator (utils/validation.ts): range rules for the
 * four measurements, the error and warning lists built check by check, the
 * prefecture list, and the substring-based destination auto-corrector.
 */
module Validation {
  import opened Wrappers
  import opened Text
  import opened ShippingTypes

  /** The four numeric fields of the form. */
  datatype Field = Length | Width | Thickness | Weight

  /** The text the form holds for a numeric field. */
  function FieldText(info: ProductInfo, f: Field): string {
    match f
    case Length => info.length
    case Width => info.width
    case Thickness => info.thickness
    case Weight => info.weight
  }

  /** The accepted closed range of one field. */
  datatype Rule = Rule(min: real, max: real)

  /** `validationRules`: centimetres for the dimensions, grams for the weight. */
  function RuleFor(f: Field): (r: Rule)
    ensures 0.0 < r.min < r.max
  {
    match f
    case Length => Rule(1.0, 100.0)
    case Width => Rule(1.0, 100.0)
    case Thickness => Rule(0.1, 60.0)
    case Weight => Rule(1.0, 30000.0)
  }

  /** The reasons the validator can reject the form, one per error text. */
  datatype Problem =
    | CategoryMissing
    | DestinationNotEntered
    | PositiveRequired(field: Field)
    | RangeRequired(field: Field)
    | DestinationNotSelected

  /** The error text pushed for each problem; range bounds are rendered as JavaScript prints the rule's numbers. */
  function MessageText(p: Problem): string {
    match p
    case CategoryMissing => "カテゴリを選択してください"
    case DestinationNotEntered => "配送先を入力してください"
    case DestinationNotSelected => "配送先を選択してください"
    case PositiveRequired(Length) => "長さは正の数値で入力してください"
    case PositiveRequired(Width) => "幅は正の数値で入力してください"
    case PositiveRequired(Thickness) => "厚みは正の数値で入力してください"
    case PositiveRequired(Weight) => "重量は正の数値で入力してください"
    case RangeRequired(Length) => "長さは1〜100cmの範囲で入力してください"
    case RangeRequired(Width) => "幅は1〜100cmの範囲で入力してください"
    case RangeRequired(Thickness) => "厚みは0.1〜60cmの範囲で入力してください"
    case RangeRequired(Weight) => "重量は1〜30000gの範囲で入力してください"
  }

  /** Different problems are reported with different texts. */
  lemma MessageTextInjective(p: Problem, q: Problem)
    ensures MessageText(p) == MessageText(q) ==> p == q
  {
  }

  /** `isNaN(v) || v <= 0`, with NaN as `None`. */
  predicate NotPositive(v: Option<real>) {
    v.None? || v.value <= 0.0
  }

  predicate OutOfRange(f: Field, x: real) {
    x < RuleFor(f).min || x > RuleFor(f).max
  }

  /** The field passes both of its checks. */
  predicate FieldOk(f: Field, v: Option<real>) {
    !NotPositive(v) && !OutOfRange(f, v.value)
  }

  /** `v > bound`; a comparison with NaN is false. */
  predicate Exceeds(v: Option<real>, bound: real) {
    v.Some? && v.value > bound
  }

  /** The value `parseFloat` reads from a numeric field. */
  function Value(info: ProductInfo, parseFloat: string -> Option<real>, f: Field): Option<real> {
    parseFloat(FieldText(info, f))
  }

  /** Whether the form exhibits a problem, as the validator's conditions decide it. */
  predicate Raised(p: Problem, info: ProductInfo, parseFloat: string -> Option<real>) {
    match p
    case CategoryMissing => info.category == ""
    case DestinationNotEntered => info.destination == ""
    case DestinationNotSelected => info.destination == ""
    case PositiveRequired(f) => NotPositive(Value(info, parseFloat, f))
    case RangeRequired(f) =>
      !NotPositive(Value(info, parseFloat, f)) && OutOfRange(f, Value(info, parseFloat, f).value)
  }

  function Flag(b: bool): nat { if b then 1 else 0 }

  /** The number of errors the form earns: one for an empty category, two for an empty destination, one per bad field. */
  function ErrorCount(info: ProductInfo, parseFloat: string -> Option<real>): nat {
    Flag(info.category == "") + 2 * Flag(info.destination == "")
    + Flag(!FieldOk(Length, parseFloat(info.length))) + Flag(!FieldOk(Width, parseFloat(info.width)))
    + Flag(!FieldOk(Thickness, parseFloat(info.thickness))) + Flag(!FieldOk(Weight, parseFloat(info.weight)))
  }

  predicate Distinct<T(==)>(s: seq<T>) {
    forall i, j :: 0 <= i < j < |s| ==> s[i] != s[j]
  }

  /** The problems one numeric field reports: at most one, the positivity check taking precedence. */
  function FieldProblems(f: Field, v: Option<real>): (ps: seq<Problem>)
    ensures |ps| <= 1
    ensures ps == [] <==> FieldOk(f, v)
    ensures PositiveRequired(f) in ps <==> NotPositive(v)
    ensures RangeRequired(f) in ps <==> !NotPositive(v) && OutOfRange(f, v.value)
    ensures forall p :: p in ps ==> p == PositiveRequired(f) || p == RangeRequired(f)
  {
    if NotPositive(v) then [PositiveRequired(f)]
    else if OutOfRange(f, v.value) then [RangeRequired(f)]
    else []
  }

  /** The problems of the form in the order the checks report them. */
  function Problems(info: ProductInfo, parseFloat: string -> Option<real>): seq<Problem> {
    (if info.category == "" then [CategoryMissing] else [])
    + (if info.destination == "" then [DestinationNotEntered] else [])
    + FieldProblems(Length, parseFloat(info.length))
    + FieldProblems(Width, parseFloat(info.width))
    + FieldProblems(Thickness, parseFloat(info.thickness))
    + FieldProblems(Weight, parseFloat(info.weight))
    + (if info.destination == "" then [DestinationNotSelected] else [])
  }

  lemma DistinctConcat<T>(a: seq<T>, b: seq<T>)
    requires Distinct(a) && Distinct(b)
    requires forall x :: x in a ==> x !in b
    ensures Distinct(a + b)
  {
    forall i, j | 0 <= i < j < |a + b| ensures (a + b)[i] != (a + b)[j] {
      if j < |a| {
      } else if i >= |a| {
        assert (a + b)[i] == b[i - |a|] && (a + b)[j] == b[j - |a|];
      } else {
        assert (a + b)[i] in a && (a + b)[j] in b;
      }
    }
  }

  /** The reported problems are exactly the raised ones, each once. */
  lemma ProblemsFacts(info: ProductInfo, parseFloat: string -> Option<real>)
    ensures forall p :: p in Problems(info, parseFloat) <==> Raised(p, info, parseFloat)
    ensures Distinct(Problems(info, parseFloat))
    ensures |Problems(info, parseFloat)| == ErrorCount(info, parseFloat)
  {
    forall p ensures p in Problems(info, parseFloat) <==> Raised(p, info, parseFloat) {
      ProblemReported(info, parseFloat, p);
    }
    ProblemsDistinct(info, parseFloat);
    ProblemsCount(info, parseFloat);
  }

  /** One entry per failed check. */
  lemma ProblemsCount(info: ProductInfo, parseFloat: string -> Option<real>)
    ensures |Problems(info, parseFloat)| == ErrorCount(info, parseFloat)
  {
  }

  /** A problem is reported exactly when its check fails. */
  lemma ProblemReported(info: ProductInfo, parseFloat: string -> Option<real>, p: Problem)
    ensures p in Problems(info, parseFloat) <==> Raised(p, info, parseFloat)
  {
    var c := if info.category == "" then [CategoryMissing] else [];
    var d := if info.destination == "" then [DestinationNotEntered] else [];
    var l := FieldProblems(Length, parseFloat(info.length));
    var w := FieldProblems(Width, parseFloat(info.width));
    var t := FieldProblems(Thickness, parseFloat(info.thickness));
    var g := FieldProblems(Weight, parseFloat(info.weight));
    var e := if info.destination == "" then [DestinationNotSelected] else [];
    assert Problems(info, parseFloat) == c + d + l + w + t + g + e;
    assert p in Problems(info, parseFloat) <==>
      p in c || p in d || p in l || p in w || p in t || p in g || p in e;
    match p
    case PositiveRequired(Length) =>
    case PositiveRequired(Width) =>
    case PositiveRequired(Thickness) =>
    case PositiveRequired(Weight) =>
    case RangeRequired(Length) =>
    case RangeRequired(Width) =>
    case RangeRequired(Thickness) =>
    case RangeRequired(Weight) =>
    case _ =>
  }

  /** The position of a problem's check in the validator: distinct checks, distinct positions. */
  function Slot(p: Problem): nat {
    match p
    case CategoryMissing => 0
    case DestinationNotEntered => 1
    case PositiveRequired(f) => 2 + FieldIndex(f)
    case RangeRequired(f) => 2 + FieldIndex(f)
    case DestinationNotSelected => 6
  }

  function FieldIndex(f: Field): nat {
    match f
    case Length => 0
    case Width => 1
    case Thickness => 2
    case Weight => 3
  }

  predicate SlotsBelow(s: seq<Problem>, k: nat) {
    forall p :: p in s ==> Slot(p) < k
  }

  predicate SlotsAt(s: seq<Problem>, k: nat) {
    forall p :: p in s ==> Slot(p) == k
  }

  /** Appending at most one problem of a later check keeps the list free of repeats. */
  lemma AppendLater(a: seq<Problem>, b: seq<Problem>, k: nat)
    requires Distinct(a) && SlotsBelow(a, k)
    requires |b| <= 1 && SlotsAt(b, k)
    ensures Distinct(a + b) && SlotsBelow(a + b, k + 1)
  {
    DistinctConcat(a, b);
  }

  /** A field reports at most one problem, at the field's own position. */
  lemma FieldSlots(f: Field, v: Option<real>)
    ensures |FieldProblems(f, v)| <= 1 && SlotsAt(FieldProblems(f, v), 2 + FieldIndex(f))
  {
  }

  /** No problem is reported twice. */
  lemma ProblemsDistinct(info: ProductInfo, parseFloat: string -> Option<real>)
    ensures Distinct(Problems(info, parseFloat))
  {
    var c := if info.category == "" then [CategoryMissing] else [];
    var d := if info.destination == "" then [DestinationNotEntered] else [];
    var l := FieldProblems(Length, parseFloat(info.length));
    var w := FieldProblems(Width, parseFloat(info.width));
    var t := FieldProblems(Thickness, parseFloat(info.thickness));
    var g := FieldProblems(Weight, parseFloat(info.weight));
    var e := if info.destination == "" then [DestinationNotSelected] else [];
    assert Problems(info, parseFloat) == c + d + l + w + t + g + e;
    FieldSlots(Length, parseFloat(info.length));
    FieldSlots(Width, parseFloat(info.width));
    FieldSlots(Thickness, parseFloat(info.thickness));
    FieldSlots(Weight, parseFloat(info.weight));
    OrderedPiecesDistinct(c, d, l, w, t, g, e);
  }

  /** Seven pieces of at most one problem each, at increasing positions, concatenate without repeats. */
  lemma OrderedPiecesDistinct(c: seq<Problem>, d: seq<Problem>, l: seq<Problem>, w: seq<Problem>,
                              t: seq<Problem>, g: seq<Problem>, e: seq<Problem>)
    requires |c| <= 1 && SlotsAt(c, 0) && |d| <= 1 && SlotsAt(d, 1)
    requires |l| <= 1 && SlotsAt(l, 2) && |w| <= 1 && SlotsAt(w, 3)
    requires |t| <= 1 && SlotsAt(t, 4) && |g| <= 1 && SlotsAt(g, 5)
    requires |e| <= 1 && SlotsAt(e, 6)
    ensures Distinct(c + d + l + w + t + g + e)
  {
    AppendLater([], c, 0);
    assert [] + c == c;
    AppendLater(c, d, 1);
    AppendLater(c + d, l, 2);
    AppendLater(c + d + l, w, 3);
    AppendLater(c + d + l + w, t, 4);
    AppendLater(c + d + l + w + t, g, 5);
    AppendLater(c + d + l + w + t + g, e, 6);
  }

  /** The form has no problem exactly when the category and destination are filled in and every field is in range. */
  lemma NoProblemsIffValid(info: ProductInfo, parseFloat: string -> Option<real>)
    ensures Problems(info, parseFloat) == [] <==>
      info.category != "" && info.destination != "" && forall f :: FieldOk(f, Value(info, parseFloat, f))
  {
    var c := if info.category == "" then [CategoryMissing] else [];
    var d := if info.destination == "" then [DestinationNotEntered] else [];
    var l := FieldProblems(Length, parseFloat(info.length));
    var w := FieldProblems(Width, parseFloat(info.width));
    var t := FieldProblems(Thickness, parseFloat(info.thickness));
    var g := FieldProblems(Weight, parseFloat(info.weight));
    var e := if info.destination == "" then [DestinationNotSelected] else [];
    assert Problems(info, parseFloat) == c + d + l + w + t + g + e;
    assert Problems(info, parseFloat) == [] <==>
      c == [] && d == [] && l == [] && w == [] && t == [] && g == [] && e == [];
    if l == [] && w == [] && t == [] && g == [] {
      forall f ensures FieldOk(f, Value(info, parseFloat, f)) {
        match f
        case Length =>
        case Width =>
        case Thickness =>
        case Weight =>
      }
    }
    assert FieldOk(Length, Value(info, parseFloat, Length)) <==> l == [];
    assert FieldOk(Width, Value(info, parseFloat, Width)) <==> w == [];
    assert FieldOk(Thickness, Value(info, parseFloat, Thickness)) <==> t == [];
    assert FieldOk(Weight, Value(info, parseFloat, Weight)) <==> g == [];
  }

  /** The texts of a list of problems, in order. */
  function Texts(ps: seq<Problem>): (r: seq<string>)
    ensures |r| == |ps|
    ensures forall i :: 0 <= i < |ps| ==> r[i] == MessageText(ps[i])
  {
    if ps == [] then [] else [MessageText(ps[0])] + Texts(ps[1..])
  }

  lemma TextsAppend(a: seq<Problem>, b: seq<Problem>)
    ensures Texts(a + b) == Texts(a) + Texts(b)
  {
  }

  /** Texts of distinct problems are distinct, and a problem's text is listed exactly when the problem is. */
  lemma TextsFacts(ps: seq<Problem>)
    ensures Distinct(ps) ==> Distinct(Texts(ps))
    ensures forall p :: MessageText(p) in Texts(ps) <==> p in ps
  {
    forall p, q {
      MessageTextInjective(p, q);
    }
  }

  const ThicknessWarning := "厚み3cm超過：配送方法が限定される可能性があります"
  const WeightWarning := "重量1kg超過：一部サービスが利用できません"
  const LargeSizeWarning := "大型サイズ：宅配便が必要な可能性があります"

  /** The order in which the validator checks for each warning. */
  function WarningRank(m: string): nat {
    if m == ThicknessWarning then 0 else if m == WeightWarning then 1 else 2
  }

  /** Every warning comes before the warnings checked after it. */
  predicate WarningsInOrder(warnings: seq<string>) {
    forall i, j :: 0 <= i < j < |warnings| ==> WarningRank(warnings[i]) < WarningRank(warnings[j])
  }

  datatype ValidationResult = ValidationResult(isValid: bool, errors: seq<string>, warnings: seq<string>)

  /** Pushes the message of a problem onto the error list when its check fails. */
  method PushIf(errors: seq<string>, ghost shown: seq<Problem>, failed: bool, p: Problem) returns (next: seq<string>)
    requires errors == Texts(shown)
    ensures next == Texts(shown + (if failed then [p] else []))
  {
    next := errors;
    if failed {
      next := next + [MessageText(p)];
      TextsAppend(shown, [p]);
    } else {
      assert shown + [] == shown;
    }
  }

  /** The checks of one numeric field, in the order the validator makes them. */
  method CheckField(errors: seq<string>, ghost shown: seq<Problem>, f: Field, v: Option<real>) returns (next: seq<string>)
    requires errors == Texts(shown)
    ensures next == Texts(shown + FieldProblems(f, v))
  {
    next := errors;
    if NotPositive(v) {
      next := PushIf(next, shown, true, PositiveRequired(f));
    } else if OutOfRange(f, v.value) {
      next := PushIf(next, shown, true, RangeRequired(f));
    } else {
      assert FieldProblems(f, v) == [];
      assert shown + FieldProblems(f, v) == shown;
    }
  }

  /** The error checks of `validateProductInfo`, each pushing its message in turn. */
  method CollectErrors(info: ProductInfo, length: Option<real>, width: Option<real>,
                       thickness: Option<real>, weight: Option<real>, ghost parseFloat: string -> Option<real>)
    returns (errors: seq<string>)
    requires length == parseFloat(info.length) && width == parseFloat(info.width)
    requires thickness == parseFloat(info.thickness) && weight == parseFloat(info.weight)
    ensures errors == Texts(Problems(info, parseFloat))
  {
    errors := [];
    errors := PushIf(errors, [], info.category == "", CategoryMissing);
    ghost var shown := [] + (if info.category == "" then [CategoryMissing] else []);
    errors := PushIf(errors, shown, info.destination == "", DestinationNotEntered);
    shown := shown + (if info.destination == "" then [DestinationNotEntered] else []);
    errors := CheckField(errors, shown, Length, length);
    shown := shown + FieldProblems(Length, length);
    errors := CheckField(errors, shown, Width, width);
    shown := shown + FieldProblems(Width, width);
    errors := CheckField(errors, shown, Thickness, thickness);
    shown := shown + FieldProblems(Thickness, thickness);
    errors := CheckField(errors, shown, Weight, weight);
    shown := shown + FieldProblems(Weight, weight);
    errors := PushIf(errors, shown, info.destination == "", DestinationNotSelected);
    shown := shown + (if info.destination == "" then [DestinationNotSelected] else []);
    assert [] + (if info.category == "" then [CategoryMissing] else []) == (if info.category == "" then [CategoryMissing] else []);
    assert shown == Problems(info, parseFloat);
  }

  /** The practicality warnings, raised only for a form without errors. */
  method CollectWarnings(errors: seq<string>, length: Option<real>, width: Option<real>,
                         thickness: Option<real>, weight: Option<real>)
    returns (warnings: seq<string>)
    ensures ThicknessWarning in warnings <==> errors == [] && Exceeds(thickness, 3.0)
    ensures WeightWarning in warnings <==> errors == [] && Exceeds(weight, 1000.0)
    ensures LargeSizeWarning in warnings <==> errors == [] && (Exceeds(length, 50.0) || Exceeds(width, 50.0))
    ensures warnings != [] ==> errors == []
    ensures forall m :: m in warnings ==> m in [ThicknessWarning, WeightWarning, LargeSizeWarning]
    ensures Distinct(warnings)
    ensures WarningsInOrder(warnings)
  {
    assert ThicknessWarning[0] != WeightWarning[0] && ThicknessWarning[0] != LargeSizeWarning[0];
    assert WeightWarning[0] != LargeSizeWarning[0];
    warnings := [];
    if |errors| == 0 {
      if Exceeds(thickness, 3.0) {
        warnings := warnings + [ThicknessWarning];
      }
      if Exceeds(weight, 1000.0) {
        warnings := warnings + [WeightWarning];
      }
      if Exceeds(length, 50.0) || Exceeds(width, 50.0) {
        warnings := warnings + [LargeSizeWarning];
      }
    }
  }

  /** `validateProductInfo`, with `parseFloat` supplied by the caller. */
  method ValidateProductInfo(info: ProductInfo, parseFloat: string -> Option<real>) returns (r: ValidationResult)
    ensures r.errors == Texts(Problems(info, parseFloat))
    ensures r.isValid <==> r.errors == []
    ensures r.warnings != [] ==> r.errors == []
    ensures r.errors == [] <==>
      info.category != "" && info.destination != "" && forall f :: FieldOk(f, Value(info, parseFloat, f))
    ensures forall p :: MessageText(p) in r.errors <==> Raised(p, info, parseFloat)
    ensures forall m :: m in r.errors ==> exists p :: m == MessageText(p)
    ensures Distinct(r.errors)
    ensures |r.errors| == ErrorCount(info, parseFloat)
    ensures ThicknessWarning in r.warnings <==> r.errors == [] && Exceeds(parseFloat(info.thickness), 3.0)
    ensures WeightWarning in r.warnings <==> r.errors == [] && Exceeds(parseFloat(info.weight), 1000.0)
    ensures LargeSizeWarning in r.warnings <==>
      r.errors == [] && (Exceeds(parseFloat(info.length), 50.0) || Exceeds(parseFloat(info.width), 50.0))
    ensures forall m :: m in r.warnings ==> m in [ThicknessWarning, WeightWarning, LargeSizeWarning]
    ensures Distinct(r.warnings)
    ensures WarningsInOrder(r.warnings)
  {
    var length := parseFloat(info.length);
    var width := parseFloat(info.width);
    var thickness := parseFloat(info.thickness);
    var weight := parseFloat(info.weight);
    var errors := CollectErrors(info, length, width, thickness, weight, parseFloat);
    ProblemsFacts(info, parseFloat);
    NoProblemsIffValid(info, parseFloat);
    TextsFacts(Problems(info, parseFloat));
    var warnings := CollectWarnings(errors, length, width, thickness, weight);
    r := ValidationResult(|errors| == 0, errors, warnings);
  }

  /** `prefectures`: the 47 prefectures north to south, one group per line of the listing; nothing in the code reads it. */
  const Prefectures: seq<string> :=
    PrefecturesHokkaido + PrefecturesTohoku + PrefecturesKanto + PrefecturesChubu + PrefecturesKansai
    + PrefecturesChugoku + PrefecturesShikoku + PrefecturesKyushu + PrefecturesOkinawa

  const PrefecturesHokkaido: seq<string> := ["北海道"]
  const PrefecturesTohoku: seq<string> := ["青森県", "岩手県", "宮城県", "秋田県", "山形県", "福島県"]
  const PrefecturesKanto: seq<string> := ["茨城県", "栃木県", "群馬県", "埼玉県", "千葉県", "東京都", "神奈川県"]
  const PrefecturesChubu: seq<string> :=
    ["新潟県", "富山県", "石川県", "福井県", "山梨県", "長野県", "岐阜県", "静岡県", "愛知県"]
  const PrefecturesKansai: seq<string> := ["三重県", "滋賀県", "京都府", "大阪府", "兵庫県", "奈良県", "和歌山県"]
  const PrefecturesChugoku: seq<string> := ["鳥取県", "島根県", "岡山県", "広島県", "山口県"]
  const PrefecturesShikoku: seq<string> := ["徳島県", "香川県", "愛媛県", "高知県"]
  const PrefecturesKyushu: seq<string> := ["福岡県", "佐賀県", "長崎県", "熊本県", "大分県", "宮崎県", "鹿児島県"]
  const PrefecturesOkinawa: seq<string> := ["沖縄県"]

  /** The auto-correction table, key and replacement, in declaration order. */
  const Corrections: seq<(string, string)> := [
    ("東京", "東京都"),
    ("大阪", "大阪府"),
    ("京都", "京都府"),
    ("北海道", "北海道"),
    ("神奈川", "神奈川県"),
    ("愛知", "愛知県"),
    ("福岡", "福岡県"),
    ("沖縄", "沖縄県")
  ]

  /** The position of the first key from `i` on that occurs in `input`, or `|entries|` if none does. */
  function FirstKeyFrom(entries: seq<(string, string)>, input: string, i: nat): (k: nat)
    requires i <= |entries|
    ensures i <= k <= |entries|
    ensures k < |entries| ==> Occurs(input, entries[k].0)
    ensures forall j :: i <= j < k ==> !Occurs(input, entries[j].0)
    decreases |entries| - i
  {
    if i == |entries| then i
    else if Includes(input, entries[i].0) then i
    else FirstKeyFrom(entries, input, i + 1)
  }

  /** `autoCorrectDestination`: the replacement of the first key found in the input, else the input. */
  function AutoCorrectDestination(input: string): (r: string)
    ensures input == "" ==> r == input
    ensures forall k ::
      (0 <= k < |Corrections| && Occurs(input, Corrections[k].0)
       && forall j :: 0 <= j < k ==> !Occurs(input, Corrections[j].0)) ==> r == Corrections[k].1
    ensures (forall k :: 0 <= k < |Corrections| ==> !Occurs(input, Corrections[k].0)) ==> r == input
    ensures r == input || exists k :: 0 <= k < |Corrections| && r == Corrections[k].1
  {
    if input == "" then input
    else
      var k := FirstKeyFrom(Corrections, input, 0);
      if k < |Corrections| then Corrections[k].1 else input
  }

  /** One of the key's first two characters is absent from `s`. */
  predicate MissingChar(s: string, key: string) {
    (|key| > 0 && key[0] !in s) || (|key| > 1 && key[1] !in s)
  }

  /** A key with a character that `s` lacks does not occur in `s`. */
  lemma KeyAbsent(s: string, key: string)
    requires MissingChar(s, key)
    ensures !Includes(s, key)
  {
  }

  /** A name whose first occurring key is the `k`-th corrects to that key's replacement. */
  lemma FirstKeyAt(s: string, k: nat)
    requires k < |Corrections| && StartsWith(s, Corrections[k].0)
    requires forall e :: e in Corrections[..k] ==> MissingChar(s, e.0)
    ensures AutoCorrectDestination(s) == Corrections[k].1
  {
    assert OccursAt(s, Corrections[k].0, 0);
    forall j | 0 <= j < k ensures !Occurs(s, Corrections[j].0) {
      assert Corrections[j] in Corrections[..k];
      KeyAbsent(s, Corrections[j].0);
    }
  }

  /** Each replacement corrects to itself. */
  lemma ReplacementIsFixed(k: nat)
    requires k < |Corrections|
    ensures AutoCorrectDestination(Corrections[k].1) == Corrections[k].1
  {
    FirstKeyAt(Corrections[k].1, k);
  }

  /** Correcting twice changes nothing more than correcting once. */
  lemma AutoCorrectIdempotent(input: string)
    ensures AutoCorrectDestination(AutoCorrectDestination(input)) == AutoCorrectDestination(input)
  {
    var r := AutoCorrectDestination(input);
    if r != input {
      var k :| 0 <= k < |Corrections| && r == Corrections[k].1;
      ReplacementIsFixed(k);
    }
  }
}
