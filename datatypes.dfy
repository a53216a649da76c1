/** The AVM field-type descriptors: how each kind of field validates a value
    (`check_data`), writes it into the packet (`set_data`), reads it back
    (`get_data`) and removes it (`delete_data`). The class hierarchy of the
    original becomes one `Kind` datatype; each constructor carries the
    parameters its class is built with. The functions here are the
    specification; the loops of the original are the methods in `Descriptors`. */
module Datatypes {
  import opened Values
  import opened Text
  import opened Patterns
  import IsoDate
  import opened Xmp

  /** `format_data`: `AVMStringCV` keeps the text, `AVMStringCVCapitalize`
      capitalizes it and `AVMStringCVUpper` upper-cases it. */
  datatype Format = Plain | Capitalized | UpperCased

  /** The `length` and `strict_length` keywords of a list field. A missing
      `length` keyword leaves the attribute at `False`, written `None` here. */
  datatype LengthRule = LengthRule(length: Option<int>, strict: bool)

  /** What the elements of an ordered list must be. */
  datatype Elem =
    | StrElem                          // AVMOrderedStringList
    | CVElem(vocabulary: set<string>)  // AVMOrderedStringListCV (capitalized)
    | FloatElem                        // AVMOrderedFloatList

  datatype Kind =
    | StringKind                                           // AVMString
    | StringCV(format: Format, vocabulary: set<string>)    // AVMStringCV and its two subclasses
    | Url                                                  // AVMURL
    | Email                                                // AVMEmail
    | LocalizedString(genericLang: string, specificLang: string)  // AVMLocalizedString
    | FloatKind                                            // AVMFloat
    | DateKind                                             // AVMDate
    | UnorderedStringList(rule: LengthRule)                // AVMUnorderedStringList
    | OrderedList(elem: Elem, rule: LengthRule)            // the three ordered lists

  /** A descriptor: where in the packet the field lives, and its kind. */
  datatype Descriptor = Descriptor(ns: string, path: string, kind: Kind)

  function KeyOf(d: Descriptor): Key { Key(d.ns, d.path) }

  // ---- check_data ----

  function FormatData(f: Format, s: string): string {
    match f
    case Plain => s
    case Capitalized => Capitalize(s)
    case UpperCased => Upper(s)
  }

  /** Formatting twice is formatting once. */
  lemma FormatIdempotent(f: Format, s: string)
    ensures FormatData(f, FormatData(f, s)) == FormatData(f, s)
  {
    match f
    case Plain =>
    case Capitalized => CapitalizeIdempotent(s);
    case UpperCased => UpperIdempotent(s);
  }

  /** `check_length` (datatypes.py:368-385): true, or AVMListLengthError. */
  function LengthOk(rule: LengthRule, n: nat): (ok: bool)
    ensures ok <==>
      (rule.strict && rule.length == Some(n)) ||
      (!rule.strict && (rule.length.None? || rule.length.value == 0 || n <= rule.length.value))
  {
    if rule.strict then rule.length == Some(n)
    else if rule.length.Some? && rule.length.value != 0 then n <= rule.length.value
    else true
  }

  function CheckString(v: Value): (r: Result<Value>)
    ensures r.Ok? <==> v.Str?
    ensures r.Ok? ==> r.value == v
    ensures r.Err? ==> r.error == TypeError
  {
    if v.Str? then Ok(v) else Err(TypeError)
  }

  /** `AVMStringCV.check_data`: a byte string, formatted, then looked up in
      the vocabulary. */
  function CheckCV(f: Format, vocabulary: set<string>, v: Value): (r: Result<Value>)
    ensures !v.Str? ==> r == Err(TypeError)
    ensures r.Ok? ==> v.Str? && r.value == Str(FormatData(f, v.s)) && r.value.s in vocabulary
    ensures v.Str? && FormatData(f, v.s) !in vocabulary ==> r == Err(NotInControlledVocabulary)
    ensures v.Str? && FormatData(f, v.s) in vocabulary ==> r == Ok(Str(FormatData(f, v.s)))
  {
    if !v.Str? then Err(TypeError)
    else
      var s := FormatData(f, v.s);
      if s in vocabulary then Ok(Str(s)) else Err(NotInControlledVocabulary)
  }

  /** A value the vocabulary check accepted passes it again unchanged. */
  lemma CVIdempotent(f: Format, vocabulary: set<string>, v: Value)
    requires CheckCV(f, vocabulary, v).Ok?
    ensures CheckCV(f, vocabulary, CheckCV(f, vocabulary, v).value) == CheckCV(f, vocabulary, v)
  {
    FormatIdempotent(f, v.s);
  }

  /** `AVMURL.check_data`: `http://` is put in front of a non-empty text
      without `://`, and the result must match URL_RE. */
  function CheckUrl(v: Value): (r: Result<Value>)
    ensures !v.Str? ==> r == Err(TypeError)
    ensures r.Ok? ==> v.Str? && r.value.Str? && UrlMatch(r.value.s)
    ensures r.Ok? && HasSchemeSeparator(v.s) ==> r.value == v
    ensures r.Ok? && !HasSchemeSeparator(v.s) ==> r.value == Str("http://" + v.s)
    ensures v.Str? && r.Err? ==> r.error == ValueError
    ensures v.Str? ==>
      var u := if v.s != [] && !HasSchemeSeparator(v.s) then "http://" + v.s else v.s;
      (r.Ok? <==> UrlMatch(u))
  {
    if !v.Str? then Err(TypeError)
    else
      var u := if v.s != [] && !HasSchemeSeparator(v.s) then "http://" + v.s else v.s;
      if UrlMatch(u) then Ok(Str(u)) else Err(ValueError)
  }

  /** A URL the check accepted is accepted again as it is. */
  lemma UrlIdempotent(v: Value)
    requires CheckUrl(v).Ok?
    ensures CheckUrl(CheckUrl(v).value) == CheckUrl(v)
  {
    UrlHasSeparator(CheckUrl(v).value.s);
  }

  /** `AVMEmail.check_data`. */
  function CheckEmail(v: Value): (r: Result<Value>)
    ensures !v.Str? ==> r == Err(TypeError)
    ensures r.Ok? <==> v.Str? && EmailMatch(v.s)
    ensures r.Ok? ==> r.value == v
    ensures v.Str? && r.Err? ==> r.error == ValueError
  {
    if !v.Str? then Err(TypeError)
    else if EmailMatch(v.s) then Ok(v) else Err(ValueError)
  }

  /** A Python 2 `int`, a machine word; wider integers are `long`, which
      `isinstance(value, int)` rejects. */
  predicate IsMachineInt(i: int) {
    -0x8000_0000_0000_0000 <= i < 0x8000_0000_0000_0000
  }

  /** `float(i)`, known by its `str()` text. */
  function FloatOfInt(i: int): (r: Value)
    ensures r.Float? && r.text != ""
  {
    Float(IntText(i) + ".0")
  }

  /** `AVMFloat.check_data`: an int becomes a float, a float stays. */
  function CheckFloat(v: Value): (r: Result<Value>)
    ensures r.Ok? ==> r.value.Float?
    ensures v.Float? ==> r == Ok(v)
    ensures v.Int? && IsMachineInt(v.i) ==> r == Ok(FloatOfInt(v.i))
    ensures r.Err? <==> !v.Float? && !(v.Int? && IsMachineInt(v.i))
    ensures r.Err? ==> r.error == TypeError
  {
    if v.Int? && IsMachineInt(v.i) then Ok(FloatOfInt(v.i))
    else if v.Float? then Ok(v)
    else Err(TypeError)
  }

  /** `AVMDate.check_data`. */
  function CheckDate(v: Value): (r: Result<Value>)
    ensures r.Ok? <==> v.DateValue?
    ensures r.Ok? ==> r.value == v
    ensures r.Err? ==> r.error == TypeError
  {
    if v.DateValue? then Ok(v) else Err(TypeError)
  }

  /** What a checked element of an ordered list is. */
  predicate ElemFits(e: Elem, y: Value) {
    match e
    case StrElem => y.Str?
    case CVElem(vocabulary) => y.Str? && y.s in vocabulary
    case FloatElem => y.Float?
  }

  /** The check one element of an ordered list goes through. */
  function CheckElement(e: Elem, x: Value): (r: Result<Value>)
    ensures r.Ok? ==> ElemFits(e, r.value)
  {
    match e
    case StrElem => CheckString(x)
    case CVElem(vocabulary) => CheckCV(Capitalized, vocabulary, x)
    case FloatElem => CheckFloat(x)
  }

  /** The element loop of an ordered list's `check_data`: the checked
      elements in order, or the error of the first element that fails. */
  function CheckElements(e: Elem, xs: seq<Value>): (r: Result<seq<Value>>)
    ensures r.Ok? <==> forall i :: 0 <= i < |xs| ==> CheckElement(e, xs[i]).Ok?
    ensures r.Ok? ==> |r.value| == |xs|
    ensures r.Ok? ==> forall i :: 0 <= i < |xs| ==> CheckElement(e, xs[i]) == Ok(r.value[i])
  {
    if xs == [] then Ok([])
    else
      match CheckElements(e, xs[..|xs| - 1])
      case Err(err) => Err(err)
      case Ok(ys) =>
        match CheckElement(e, xs[|xs| - 1])
        case Err(err) => Err(err)
        case Ok(y) => Ok(ys + [y])
  }

  /** When the element loop fails, it reports the error of the first
      element whose check fails. */
  lemma {:induction false} FirstElementError(e: Elem, xs: seq<Value>) returns (i: nat)
    requires CheckElements(e, xs).Err?
    ensures i < |xs|
    ensures forall j :: 0 <= j < i ==> CheckElement(e, xs[j]).Ok?
    ensures CheckElement(e, xs[i]) == Err(CheckElements(e, xs).error)
  {
    var front := xs[..|xs| - 1];
    if CheckElements(e, front).Err? {
      i := FirstElementError(e, front);
      assert xs[i] == front[i];
      forall j | 0 <= j < i ensures CheckElement(e, xs[j]).Ok? { assert xs[j] == front[j]; }
    } else {
      i := |xs| - 1;
      forall j | 0 <= j < i ensures CheckElement(e, xs[j]).Ok? { assert xs[j] == front[j]; }
    }
  }

  /** What a checked value of a field is. */
  predicate Fits(k: Kind, c: Value) {
    match k
    case FloatKind => c.Float?
    case DateKind => c.DateValue?
    case UnorderedStringList(_) => c.Set? && forall x :: x in c.members ==> x.Str?
    case OrderedList(e, _) => c.List? && forall i :: 0 <= i < |c.items| ==> ElemFits(e, c.items[i])
    case _ => c.Str?
  }

  /** `check_data` of every kind. */
  function Check(k: Kind, v: Value): (r: Result<Value>)
    ensures r.Ok? ==> Fits(k, r.value)
  {
    match k
    case StringKind => CheckString(v)
    case StringCV(f, vocabulary) => CheckCV(f, vocabulary, v)
    case Url => CheckUrl(v)
    case Email => CheckEmail(v)
    case LocalizedString(_, _) => CheckString(v)
    case FloatKind => CheckFloat(v)
    case DateKind => CheckDate(v)
    case UnorderedStringList(rule) =>
      if !v.Set? then Err(TypeError)
      else if !LengthOk(rule, |v.members|) then Err(ListLengthError)
      else if forall x :: x in v.members ==> x.Str? then Ok(v)
      else Err(TypeError)
    case OrderedList(e, rule) =>
      if !v.List? then Err(TypeError)
      else if !LengthOk(rule, |v.items|) then Err(ListLengthError)
      else
        match CheckElements(e, v.items)
        case Err(err) => Err(err)
        case Ok(ys) => Ok(List(ys))
  }

  /** The order of the checks of an ordered list: the type of the container,
      then its length, then each element in turn. A list that is too long
      fails on its length whatever its elements are; a list that passes keeps
      its length and order, element by element. */
  lemma OrderedCheck(e: Elem, rule: LengthRule, v: Value)
    ensures !v.List? ==> Check(OrderedList(e, rule), v) == Err(TypeError)
    ensures v.List? && !LengthOk(rule, |v.items|) ==> Check(OrderedList(e, rule), v) == Err(ListLengthError)
    ensures v.List? && LengthOk(rule, |v.items|) ==>
      match Check(OrderedList(e, rule), v)
      case Ok(c) =>
        c.List? && |c.items| == |v.items| &&
        forall i :: 0 <= i < |v.items| ==> CheckElement(e, v.items[i]) == Ok(c.items[i])
      case Err(err) =>
        exists i :: 0 <= i < |v.items| && CheckElement(e, v.items[i]) == Err(err) &&
          forall j :: 0 <= j < i ==> CheckElement(e, v.items[j]).Ok?
  {
    if v.List? && LengthOk(rule, |v.items|) && CheckElements(e, v.items).Err? {
      var i := FirstElementError(e, v.items);
    }
  }

  /** The order of the checks of an unordered list: the type of the
      container, then its length, then every member must be a byte string. A
      set that passes comes back as it is. */
  lemma UnorderedCheck(rule: LengthRule, v: Value)
    ensures !v.Set? ==> Check(UnorderedStringList(rule), v) == Err(TypeError)
    ensures v.Set? && !LengthOk(rule, |v.members|) ==>
      Check(UnorderedStringList(rule), v) == Err(ListLengthError)
    ensures v.Set? && LengthOk(rule, |v.members|) ==>
      (Check(UnorderedStringList(rule), v).Ok? <==> forall x :: x in v.members ==> x.Str?) &&
      (Check(UnorderedStringList(rule), v).Ok? ==> Check(UnorderedStringList(rule), v) == Ok(v)) &&
      (Check(UnorderedStringList(rule), v).Err? ==> Check(UnorderedStringList(rule), v) == Err(TypeError))
  {
  }

  /** The float list maps each int to a float, keeps each float, and rejects
      anything else with TypeError. */
  lemma FloatListElements(rule: LengthRule, v: Value)
    requires v.List? && Check(OrderedList(FloatElem, rule), v).Ok?
    ensures forall i :: 0 <= i < |v.items| ==>
      (v.items[i].Float? ==> Check(OrderedList(FloatElem, rule), v).value.items[i] == v.items[i]) &&
      (v.items[i].Int? ==> Check(OrderedList(FloatElem, rule), v).value.items[i] == FloatOfInt(v.items[i].i))
  {
  }

  // ---- The texts the packet holds ----

  predicate Printable(v: Value) { v.Str? || v.Float? || v.DateValue? }

  /** `str(value)` of the values a descriptor writes. */
  function StrOf(v: Value): string
    requires Printable(v)
  {
    match v
    case Str(s) => s
    case Float(t) => t
    case DateValue(d) => IsoDate.Format(d)
  }

  function Texts(ys: seq<Value>): (ts: seq<string>)
    requires forall i :: 0 <= i < |ys| ==> Printable(ys[i])
    ensures |ts| == |ys|
    ensures forall i :: 0 <= i < |ys| ==> ts[i] == StrOf(ys[i])
  {
    seq(|ys|, i requires 0 <= i < |ys| => StrOf(ys[i]))
  }

  /** The strings of a checked set. */
  function SetTexts(c: Value): set<string>
    requires c.Set?
  {
    set x | x in c.members && x.Str? :: x.s
  }

  /** `order` lists every element of `s` once: the order in which a loop over
      a Python set visits it. */
  predicate Enumerates(order: seq<string>, s: set<string>) {
    (forall t :: t in s ==> t in order) &&
    (forall i :: 0 <= i < |order| ==> order[i] in s) &&
    (forall i, j :: 0 <= i < j < |order| ==> order[i] != order[j])
  }

  // ---- set_data ----

  /** The append loop of a list's `set_data`: append each text in turn and
      stop with false at the first append the packet refuses. */
  function AppendAll(ps: Props, k: Key, xs: seq<string>, ordered: bool): (bool, Props)
    decreases |xs|
  {
    if xs == [] then (true, ps)
    else
      var (ok, ps1) := AppendEffect(ps, k, xs[0], ordered);
      if !ok then (false, ps) else AppendAll(ps1, k, xs[1..], ordered)
  }

  /** Only the first append can be refused: after it the array exists with
      the right form. So the loop either appends everything after the items
      already there, or changes nothing. */
  lemma {:induction false} AppendAllClosedForm(ps: Props, k: Key, xs: seq<string>, ordered: bool)
    ensures AppendAll(ps, k, xs, ordered) ==
      if xs == [] then (true, ps)
      else if CanAppend(ps, k, ordered) then (true, ps[k := Array(ArrayItems(ps, k) + xs, ordered)])
      else (false, ps)
    decreases |xs|
  {
    if xs != [] && CanAppend(ps, k, ordered) {
      var ps1 := ps[k := Array(ArrayItems(ps, k) + [xs[0]], ordered)];
      assert AppendEffect(ps, k, xs[0], ordered) == (true, ps1);
      assert AppendAll(ps, k, xs, ordered) == AppendAll(ps1, k, xs[1..], ordered);
      AppendAllClosedForm(ps1, k, xs[1..], ordered);
      assert ArrayItems(ps1, k) + xs[1..] == ArrayItems(ps, k) + xs;
      if xs[1..] == [] { assert xs == [xs[0]]; }
      var x := Array(ArrayItems(ps, k) + xs, ordered);
      assert ps1[k := x] == ps[k := x];
    }
  }

  /** A strict list deletes the old array before it appends. */
  function Start(rule: LengthRule, ps: Props, k: Key): Props {
    if rule.strict then ps - {k} else ps
  }

  /** What `set_data` returned (`Ok(true)` for true, `Ok(false)` for False
      or None) or raised, and the packet after it. */
  datatype WriteOutcome = WriteOutcome(result: Result<bool>, props: Props)

  /** `set_data` of every kind. For an unordered list, `order` is the order
      in which the loop visits the checked set. */
  function Write(d: Descriptor, v: Value, ps: Props, order: seq<string>): WriteOutcome {
    var k := KeyOf(d);
    match Check(d.kind, v)
    case Err(err) => WriteOutcome(Err(err), ps)
    case Ok(c) =>
      match d.kind
      case UnorderedStringList(rule) =>
        var (ok, q) := AppendAll(Start(rule, ps, k), k, order, false);
        WriteOutcome(Ok(ok), q)
      case OrderedList(_, rule) =>
        var (ok, q) := AppendAll(Start(rule, ps, k), k, Texts(c.items), true);
        WriteOutcome(Ok(ok), q)
      case LocalizedString(g, sp) =>
        var (ok, q) := SetLocalizedEffect(ps, k, g, sp, c.s);
        WriteOutcome(Ok(ok), q)
      case _ =>
        var (ok, q) := SetPropertyEffect(ps, k, StrOf(c));
        WriteOutcome(Ok(ok), q)
  }

  /** Whether the packet takes a checked value of the field. */
  predicate Storable(d: Descriptor, c: Value, ps: Props)
    requires Fits(d.kind, c)
  {
    var k := KeyOf(d);
    match d.kind
    case UnorderedStringList(rule) => rule.strict || c.members == {} || CanAppend(ps, k, false)
    case OrderedList(_, rule) => rule.strict || c.items == [] || CanAppend(ps, k, true)
    case LocalizedString(_, _) => CanSetLocalized(ps, k)
    case _ => CanSetProperty(ps, k)
  }

  lemma EnumeratesEmpty(order: seq<string>, s: set<string>)
    requires Enumerates(order, s)
    ensures order == [] <==> s == {}
  {
    if order != [] { assert order[0] in s; }
    if s != {} { var t :| t in s; assert t in order; }
  }

  lemma SetTextsEmpty(c: Value)
    requires c.Set? && forall x :: x in c.members ==> x.Str?
    ensures SetTexts(c) == {} <==> c.members == {}
  {
    if c.members != {} { var x :| x in c.members; assert x.s in SetTexts(c); }
  }

  /** When `set_data` does not succeed the packet is unchanged; an error of
      `check_data` is what it raises; and whatever it does it touches no
      property but the field's own. */
  lemma WriteFrame(d: Descriptor, v: Value, ps: Props, order: seq<string>)
    ensures var w := Write(d, v, ps, order);
      (w.result != Ok(true) ==> w.props == ps) &&
      (Check(d.kind, v).Err? <==> w.result.Err?) &&
      (Check(d.kind, v).Err? ==> w.result == Err(Check(d.kind, v).error)) &&
      w.props - {KeyOf(d)} == ps - {KeyOf(d)}
  {
    var k := KeyOf(d);
    if Check(d.kind, v).Ok? {
      var c := Check(d.kind, v).value;
      match d.kind
      case UnorderedStringList(rule) =>
        AppendAllClosedForm(Start(rule, ps, k), k, order, false);
        assert k !in ps - {k};
      case OrderedList(_, rule) =>
        AppendAllClosedForm(Start(rule, ps, k), k, Texts(c.items), true);
        assert k !in ps - {k};
      case LocalizedString(_, _) =>
      case StringKind =>
      case StringCV(_, _) =>
      case Url =>
      case Email =>
      case FloatKind =>
      case DateKind =>
    }
  }

  /** `set_data` succeeds exactly when the value passes `check_data` and the
      packet takes it. */
  lemma WriteSucceeds(d: Descriptor, v: Value, ps: Props, order: seq<string>)
    requires Check(d.kind, v).Ok? && d.kind.UnorderedStringList? ==>
      Enumerates(order, SetTexts(Check(d.kind, v).value))
    ensures Write(d, v, ps, order).result == Ok(true) <==>
      Check(d.kind, v).Ok? && Storable(d, Check(d.kind, v).value, ps)
  {
    var k := KeyOf(d);
    if Check(d.kind, v).Ok? {
      var c := Check(d.kind, v).value;
      match d.kind
      case UnorderedStringList(rule) =>
        AppendAllClosedForm(Start(rule, ps, k), k, order, false);
        EnumeratesEmpty(order, SetTexts(c));
        SetTextsEmpty(c);
        assert k !in ps - {k};
      case OrderedList(_, rule) =>
        AppendAllClosedForm(Start(rule, ps, k), k, Texts(c.items), true);
        assert k !in ps - {k};
      case LocalizedString(_, _) =>
      case StringKind =>
      case StringCV(_, _) =>
      case Url =>
      case Email =>
      case FloatKind =>
      case DateKind =>
    }
  }

  // ---- get_data ----

  /** `str(item)` or `float(item)` of one array item. */
  function ReadItem(e: Elem, t: string): Value {
    if e.FloatElem? then Float(t) else Str(t)
  }

  function ReadItems(e: Elem, ts: seq<string>): (ys: seq<Value>)
    ensures |ys| == |ts|
    ensures forall i :: 0 <= i < |ts| ==> ys[i] == ReadItem(e, ts[i])
  {
    seq(|ts|, i requires 0 <= i < |ts| => ReadItem(e, ts[i]))
  }

  /** The simple text of the field, when it is there and not empty: the
      truth test `if xmp_packet.get_property(...)`. */
  function TextOf(d: Descriptor, ps: Props): Option<string> {
    match PropertyText(ps, KeyOf(d))
    case Some(t) => if t == "" then None else Some(t)
    case None => None
  }

  /** `get_data` of every kind: `Null` for an absent or empty property and
      for an array with no items; ValueError for a date text `strptime`
      refuses. */
  function Read(d: Descriptor, ps: Props): (r: Result<Value>)
    ensures r.Err? ==> d.kind.DateKind? && r.error == ValueError
  {
    var k := KeyOf(d);
    match d.kind
    case LocalizedString(g, sp) =>
      Ok(match LocalizedText(ps, k, g, sp) case None => Null case Some(t) => Str(t))
    case UnorderedStringList(_) =>
      var items := ArrayItems(ps, k);
      Ok(if |items| == 0 then Null else Set(TextSet(items)))
    case OrderedList(e, _) =>
      var items := ArrayItems(ps, k);
      Ok(if |items| == 0 then Null else List(ReadItems(e, items)))
    case FloatKind =>
      Ok(match TextOf(d, ps) case None => Null case Some(t) => Float(t))
    case DateKind =>
      (match TextOf(d, ps)
       case None => Ok(Null)
       case Some(t) =>
         match IsoDate.Parse(t)
         case None => Err(ValueError)
         case Some(date) => Ok(DateValue(date)))
    case _ =>
      Ok(match TextOf(d, ps) case None => Null case Some(t) => Str(t))
  }

  /** Reading a field looks at its own property only. */
  lemma ReadLocal(d: Descriptor, ps: Props, qs: Props)
    requires KeyOf(d) in ps <==> KeyOf(d) in qs
    requires KeyOf(d) in ps ==> ps[KeyOf(d)] == qs[KeyOf(d)]
    ensures Read(d, ps) == Read(d, qs)
  {
  }

  /** After `delete_data` the field reads as None. */
  lemma ReadAfterDelete(d: Descriptor, ps: Props)
    ensures Read(d, ps - {KeyOf(d)}) == Ok(Null)
  {
    assert KeyOf(d) !in ps - {KeyOf(d)};
  }

  // ---- Writing and reading back ----

  /** A string field reads back what was written, except that an empty
      string reads as None. */
  lemma StringRoundTrip(d: Descriptor, v: Value, ps: Props, order: seq<string>)
    requires d.kind.StringKind? || d.kind.StringCV? || d.kind.Url? || d.kind.Email?
    requires Write(d, v, ps, order).result == Ok(true)
    ensures var c := Check(d.kind, v).value;
      Read(d, Write(d, v, ps, order).props) == Ok(if c.s == "" then Null else c)
  {
  }

  /** Every non-empty term of a vocabulary field's controlled vocabulary that
      is already in its field's format is stored, unless the property is an
      array, and reads back as itself. */
  lemma VocabularyTermStored(d: Descriptor, term: string, ps: Props, order: seq<string>)
    requires d.kind.StringCV? && term in d.kind.vocabulary && FormatData(d.kind.format, term) == term
    requires term != "" && CanSetProperty(ps, KeyOf(d))
    ensures Write(d, Str(term), ps, order).result == Ok(true)
    ensures Read(d, Write(d, Str(term), ps, order).props) == Ok(Str(term))
  {
    WriteSucceeds(d, Str(term), ps, order);
    StringRoundTrip(d, Str(term), ps, order);
  }

  /** A localized string reads back exactly what was written. */
  lemma LocalizedRoundTrip(d: Descriptor, v: Value, ps: Props, order: seq<string>)
    requires d.kind.LocalizedString?
    requires Write(d, v, ps, order).result == Ok(true)
    ensures Read(d, Write(d, v, ps, order).props) == Ok(v)
  {
  }

  /** A float field reads back the float written; an int reads back as the
      float it was turned into. */
  lemma FloatRoundTrip(d: Descriptor, v: Value, ps: Props, order: seq<string>)
    requires d.kind.FloatKind?
    requires v.Float? ==> v.text != ""
    requires Write(d, v, ps, order).result == Ok(true)
    ensures v.Float? ==> Read(d, Write(d, v, ps, order).props) == Ok(v)
    ensures v.Int? ==> Read(d, Write(d, v, ps, order).props) == Ok(FloatOfInt(v.i))
  {
  }

  /** A date field reads back the date written: the text `str(date)` stores
      is parsed by `strptime` to the same year, month and day. */
  lemma DateRoundTrip(d: Descriptor, v: Value, ps: Props, order: seq<string>)
    requires d.kind.DateKind?
    requires Write(d, v, ps, order).result == Ok(true)
    ensures Read(d, Write(d, v, ps, order).props) == Ok(v)
  {
    IsoDate.RoundTrip(v.date);
  }

  lemma ReadItemsTexts(e: Elem, c: Value)
    requires c.List? && forall i :: 0 <= i < |c.items| ==> ElemFits(e, c.items[i])
    ensures forall i :: 0 <= i < |c.items| ==> Printable(c.items[i])
    ensures ReadItems(e, Texts(c.items)) == c.items
  {
    assert forall i :: 0 <= i < |c.items| ==> Printable(c.items[i]);
  }

  /** The items a list field holds after a successful `set_data`: with
      `strict_length` the written texts alone, otherwise the old items
      followed by them. */
  lemma {:induction false} ListStored(ps: Props, k: Key, rule: LengthRule, texts: seq<string>, ordered: bool)
    requires AppendAll(Start(rule, ps, k), k, texts, ordered).0
    ensures ArrayItems(AppendAll(Start(rule, ps, k), k, texts, ordered).1, k) ==
      (if rule.strict then [] else ArrayItems(ps, k)) + texts
  {
    var start := Start(rule, ps, k);
    AppendAllClosedForm(start, k, texts, ordered);
    var before := if rule.strict then [] else ArrayItems(ps, k);
    assert ArrayItems(start, k) == before by {
      if rule.strict { assert k !in start; }
    }
    if texts == [] { assert before + texts == before; }
  }

  /** An ordered list reads back in store order: with `strict_length` the
      checked values alone, otherwise the old items followed by them. */
  lemma OrderedListRoundTrip(d: Descriptor, v: Value, ps: Props, order: seq<string>)
    requires d.kind.OrderedList?
    requires Write(d, v, ps, order).result == Ok(true)
    ensures var c := Check(d.kind, v).value;
      var items := if d.kind.rule.strict then c.items
                   else ReadItems(d.kind.elem, ArrayItems(ps, KeyOf(d))) + c.items;
      Read(d, Write(d, v, ps, order).props) == Ok(if items == [] then Null else List(items))
  {
    var k := KeyOf(d);
    var c := Check(d.kind, v).value;
    var e := d.kind.elem;
    var rule := d.kind.rule;
    ReadItemsTexts(e, c);
    var texts := Texts(c.items);
    var w := AppendAll(Start(rule, ps, k), k, texts, true);
    assert Write(d, v, ps, order) == WriteOutcome(Ok(w.0), w.1);
    ListStored(ps, k, rule, texts, true);
    var before := if rule.strict then [] else ArrayItems(ps, k);
    var after := ArrayItems(w.1, k);
    assert after == before + texts;
    assert ReadItems(e, after) == ReadItems(e, before) + c.items;
    var items := if rule.strict then c.items else ReadItems(e, ArrayItems(ps, k)) + c.items;
    assert items == ReadItems(e, after) by {
      if rule.strict { assert ReadItems(e, before) == []; }
    }
    assert Read(d, w.1) == Ok(if |after| == 0 then Null else List(ReadItems(e, after)));
  }

  /** The set a list of texts reads back as. */
  function TextSet(ts: seq<string>): set<Value> {
    set t | t in ts :: Str(t)
  }

  lemma TextSetJoin(before: seq<string>, order: seq<string>, c: Value)
    requires c.Set? && forall x :: x in c.members ==> x.Str?
    requires Enumerates(order, SetTexts(c))
    ensures TextSet(before + order) == TextSet(before) + c.members
  {
    var after := before + order;
    forall x | x in TextSet(before) + c.members ensures x in TextSet(after) {
      if x in c.members {
        assert x.s in SetTexts(c);
        assert x.s in order;
        assert x.s in after;
      } else {
        var t :| t in before && x == Str(t);
        assert t in after;
      }
    }
    forall x | x in TextSet(after) ensures x in TextSet(before) + c.members {
      var t :| t in after && x == Str(t);
      if t in order {
        assert t in SetTexts(c);
      } else {
        assert t in before;
      }
    }
  }

  lemma TextSetEmpty(ts: seq<string>)
    ensures TextSet(ts) == {} <==> ts == []
  {
    if ts != [] { assert Str(ts[0]) in TextSet(ts); }
  }

  /** An unordered list reads back as a set: with `strict_length` the checked
      set alone, otherwise joined with the strings already there. */
  lemma UnorderedRoundTrip(d: Descriptor, v: Value, ps: Props, order: seq<string>)
    requires d.kind.UnorderedStringList?
    requires Check(d.kind, v).Ok? ==> Enumerates(order, SetTexts(Check(d.kind, v).value))
    requires Write(d, v, ps, order).result == Ok(true)
    ensures var c := Check(d.kind, v).value;
      var members := if d.kind.rule.strict then c.members
                     else TextSet(ArrayItems(ps, KeyOf(d))) + c.members;
      Read(d, Write(d, v, ps, order).props) == Ok(if members == {} then Null else Set(members))
  {
    var k := KeyOf(d);
    var c := Check(d.kind, v).value;
    var rule := d.kind.rule;
    var w := AppendAll(Start(rule, ps, k), k, order, false);
    assert Write(d, v, ps, order) == WriteOutcome(Ok(w.0), w.1);
    ListStored(ps, k, rule, order, false);
    var before := if rule.strict then [] else ArrayItems(ps, k);
    var after := ArrayItems(w.1, k);
    TextSetJoin(before, order, c);
    TextSetEmpty(after);
    if rule.strict { assert TextSet(before) == {}; }
    assert Read(d, w.1) == Ok(if |after| == 0 then Null else Set(TextSet(after)));
  }

  /** Reading a field right after a successful `set_data` never raises: the
      only read that can fail is a date, and a written date parses back. */
  lemma WriteThenReadOk(d: Descriptor, v: Value, ps: Props, order: seq<string>)
    requires Write(d, v, ps, order).result == Ok(true)
    ensures Read(d, Write(d, v, ps, order).props).Ok?
  {
    if d.kind.DateKind? { DateRoundTrip(d, v, ps, order); }
  }
}
