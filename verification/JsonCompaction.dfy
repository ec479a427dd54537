/**
  Compaction of old tool call arguments: long strings of a JSON value are cut at rune boundaries and
  framed, nothing else changes (internal/runtime/compaction.go:973-1044, 1061-1086). Strings are byte
  strings here: every character stands for one byte.
*/
module JsonCompaction {
  import Text

  type Bytes = string

  /** A decoded JSON value; numbers keep their digits, and objects list their fields in some order. */
  datatype Json = Null | Bool(b: bool) | Number(digits: Bytes) | Str(text: Bytes) | Arr(items: seq<Json>) | Obj(fields: seq<Field>)

  datatype Field = Field(key: Bytes, value: Json)

  const HEAD_LIMIT := 700
  const TAIL_LIMIT := 500

  /** The longest string that is left alone. */
  const LIMIT := HEAD_LIMIT + TAIL_LIMIT + 200

  /** The length of no string exceeds the largest 64-bit integer. */
  const MAX_LENGTH := 0x7FFF_FFFF_FFFF_FFFF

  // ---------- rune boundaries ----------

  predicate IsContinuation(c: char) {
    '\U{80}' <= c < '\U{C0}'
  }

  /** Both ends of the text, and every byte that is no continuation byte. */
  predicate Boundary(text: Bytes, k: int) {
    k == 0 || k == |text| || (0 < k < |text| && !IsContinuation(text[k]))
  }

  /** prefixAtRuneBoundary: the text up to the last boundary within the limit. */
  method CutPrefix(text: Bytes, limit: int) returns (head: Bytes)
    ensures head <= text && |head| <= (if limit < 0 then 0 else limit) && Boundary(text, |head|)
    ensures forall k :: |head| < k <= limit && k <= |text| ==> !Boundary(text, k)
    ensures head == text[..LastBoundary(text, limit)]
  {
    if limit <= 0 {
      return "";
    }
    if limit >= |text| {
      assert text[..|text|] == text;
      return text;
    }
    var cut := limit;
    while cut > 0 && IsContinuation(text[cut])
      invariant 0 <= cut <= limit
      invariant forall k :: cut < k <= limit ==> IsContinuation(text[k])
      invariant LastBoundary(text, limit) == LastBoundary(text, cut)
    {
      cut := cut - 1;
    }
    head := text[..cut];
  }

  /** suffixAtRuneBoundary: the text from the first boundary that leaves no more than the limit. */
  method CutSuffix(text: Bytes, limit: int) returns (tail: Bytes)
    ensures |tail| <= |text| && tail == text[|text| - |tail|..]
    ensures |tail| <= (if limit < 0 then 0 else limit) && Boundary(text, |text| - |tail|)
    ensures forall k :: 0 <= k < |text| - |tail| && |text| - k <= limit ==> !Boundary(text, k)
    ensures tail == text[FirstBoundary(text, |text| - limit)..]
  {
    if limit <= 0 {
      return "";
    }
    if limit >= |text| {
      return text;
    }
    var start := |text| - limit;
    while start < |text| && IsContinuation(text[start])
      invariant |text| - limit <= start <= |text|
      invariant forall k :: |text| - limit <= k < start ==> IsContinuation(text[k])
      invariant FirstBoundary(text, |text| - limit) == FirstBoundary(text, start)
    {
      start := start + 1;
    }
    tail := text[start..];
  }

  function LastBoundary(text: Bytes, limit: int): (k: nat)
    ensures k <= |text| && Boundary(text, k)
    ensures k <= limit || k == 0
    decreases limit
  {
    if limit <= 0 then 0
    else if limit >= |text| then |text|
    else if IsContinuation(text[limit]) then LastBoundary(text, limit - 1)
    else limit
  }

  function FirstBoundary(text: Bytes, start: int): (k: nat)
    ensures k <= |text| && Boundary(text, k)
    ensures start <= k || k == |text|
    decreases |text| - start
  {
    if start >= |text| then |text|
    else if start <= 0 then 0
    else if IsContinuation(text[start]) then FirstBoundary(text, start + 1)
    else start
  }

  // ---------- UTF-8 ----------

  predicate InRange(c: char, low: char, high: char) {
    low <= c <= high
  }

  /** The length of the well-formed character at the start of the text, or 0 (section 4 of RFC 3629). */
  function RuneLength(text: Bytes): (n: nat)
    ensures n <= 4 && n <= |text|
    ensures forall k :: 0 < k < n ==> IsContinuation(text[k])
    ensures n > 0 ==> !IsContinuation(text[0])
  {
    if text == "" then 0
    else if text[0] < '\U{80}' then 1
    else if InRange(text[0], '\U{C2}', '\U{DF}') && |text| >= 2 && IsContinuation(text[1]) then 2
    else if InRange(text[0], '\U{E0}', '\U{EF}') && |text| >= 3 && IsContinuation(text[1]) && IsContinuation(text[2])
            && (text[0] == '\U{E0}' ==> text[1] >= '\U{A0}') && (text[0] == '\U{ED}' ==> text[1] < '\U{A0}') then 3
    else if InRange(text[0], '\U{F0}', '\U{F4}') && |text| >= 4
            && IsContinuation(text[1]) && IsContinuation(text[2]) && IsContinuation(text[3])
            && (text[0] == '\U{F0}' ==> text[1] >= '\U{90}') && (text[0] == '\U{F4}' ==> text[1] < '\U{90}') then 4
    else 0
  }

  predicate ValidUtf8(text: Bytes)
    decreases |text|
  {
    text == "" || (RuneLength(text) > 0 && ValidUtf8(text[RuneLength(text)..]))
  }

  lemma RuneLengthLocal(a: Bytes, b: Bytes)
    requires RuneLength(a) > 0
    ensures RuneLength(a + b) == RuneLength(a)
  {
  }

  lemma ValidStep(text: Bytes, rest: Bytes)
    requires RuneLength(text) > 0 && rest == text[RuneLength(text)..] && ValidUtf8(rest)
    ensures ValidUtf8(text)
  {
  }

  lemma DropConcat(a: Bytes, b: Bytes, n: nat)
    requires n <= |a|
    ensures (a + b)[n..] == a[n..] + b
  {
  }

  lemma {:induction false} ValidConcat(a: Bytes, b: Bytes)
    requires ValidUtf8(a) && ValidUtf8(b)
    ensures ValidUtf8(a + b)
    decreases |a|
  {
    if a == "" {
      assert a + b == b;
    } else {
      var n := RuneLength(a);
      ValidConcat(a[n..], b);
      RuneLengthLocal(a, b);
      DropConcat(a, b, n);
      ValidStep(a + b, a[n..] + b);
    }
  }

  lemma {:induction false} AsciiIsValid(text: Bytes)
    requires forall k :: 0 <= k < |text| ==> text[k] < '\U{80}'
    ensures ValidUtf8(text)
    decreases |text|
  {
    if text != "" {
      AsciiIsValid(text[1..]);
    }
  }

  /** Cutting well-formed text at a boundary leaves two well-formed texts. */
  lemma {:induction false} ValidCut(text: Bytes, k: nat)
    requires ValidUtf8(text) && k <= |text| && Boundary(text, k)
    ensures ValidUtf8(text[..k]) && ValidUtf8(text[k..])
    decreases |text|
  {
    if k == 0 {
      assert text[k..] == text;
    } else if k == |text| {
      assert text[..k] == text;
    } else {
      var n := RuneLength(text);
      assert n <= k;
      ValidCut(text[n..], k - n);
      CutPieces(text, n, k);
      RuneWithin(text, k);
    }
  }

  lemma CutPieces(text: Bytes, n: nat, k: nat)
    requires n <= k <= |text|
    ensures text[n..][k - n..] == text[k..]
    ensures text[n..][..k - n] == text[..k][n..]
  {
  }

  lemma RuneWithin(text: Bytes, k: nat)
    requires 0 < RuneLength(text) <= k <= |text|
    ensures RuneLength(text[..k]) == RuneLength(text)
  {
  }

  /** In well-formed text a cut gives up at most three bytes of the limit. */
  lemma {:induction false} BoundaryIsNear(text: Bytes, at: nat)
    requires ValidUtf8(text) && at <= |text|
    ensures exists k :: at - 3 <= k <= at && 0 <= k && Boundary(text, k)
    decreases |text|
  {
    if at == 0 || at == |text| {
      assert Boundary(text, at);
    } else {
      var n := RuneLength(text);
      if at < n {
        assert Boundary(text, 0);
      } else {
        BoundaryIsNear(text[n..], at - n);
        var k :| at - n - 3 <= k <= at - n && 0 <= k && Boundary(text[n..], k);
        BoundaryShifts(text, n, k);
        assert Boundary(text, k + n);
      }
    }
  }

  lemma BoundaryShifts(text: Bytes, n: nat, k: nat)
    requires n < |text| && n + k <= |text| && !IsContinuation(text[n]) && Boundary(text[n..], k)
    ensures Boundary(text, k + n)
  {
  }

  lemma PrefixIsNear(text: Bytes, limit: nat)
    requires ValidUtf8(text) && limit <= |text|
    ensures LastBoundary(text, limit) >= limit - 3
  {
    BoundaryIsNear(text, limit);
    var k :| limit - 3 <= k <= limit && 0 <= k && Boundary(text, k);
    LastIsLast(text, limit, k);
  }

  lemma {:induction false} LastIsLast(text: Bytes, limit: nat, k: nat)
    requires k <= limit && k <= |text| && Boundary(text, k)
    ensures k <= LastBoundary(text, limit)
    decreases limit
  {
    if 0 < limit < |text| && IsContinuation(text[limit]) {
      LastIsLast(text, limit - 1, k);
    }
  }

  // ---------- one string ----------

  /** The words around what is kept of a long string. */
  datatype Wording = Wording(opening: Bytes, afterCount: Bytes, middle: Bytes)

  const OPENING_WORDS: Bytes := "[Compacted previous_tool_"
  const COUNT_WORDS: Bytes := "arguments: omitted "
  const AFTER_WORDS: Bytes := " chars between prefix"
  const HEAD_WORDS: Bytes := " and suffix]\nprefix:\n"
  const TAIL_WORDS: Bytes := "\nsuffix:\n"

  const WORDING := Wording(OPENING_WORDS + COUNT_WORDS, AFTER_WORDS + HEAD_WORDS, TAIL_WORDS)

  predicate IsAscii(text: Bytes) {
    forall k :: 0 <= k < |text| ==> text[k] < '\U{80}'
  }

  /** ASCII, and short enough for a frame with a 19-digit count to fit beside head and tail. */
  predicate Proper(w: Wording) {
    && IsAscii(w.opening) && IsAscii(w.afterCount) && IsAscii(w.middle)
    && |w.opening| + |w.afterCount| + |w.middle| + 19 <= LIMIT - HEAD_LIMIT - TAIL_LIMIT
  }

  lemma OpeningWordsAreAscii()
    ensures IsAscii(OPENING_WORDS) && |OPENING_WORDS| == 25
  {
  }

  lemma CountWordsAreAscii()
    ensures IsAscii(COUNT_WORDS) && |COUNT_WORDS| == 19
  {
  }

  lemma AfterWordsAreAscii()
    ensures IsAscii(AFTER_WORDS) && |AFTER_WORDS| == 21
  {
  }

  lemma HeadWordsAreAscii()
    ensures IsAscii(HEAD_WORDS) && |HEAD_WORDS| == 21
  {
  }

  lemma ProperWording(opening: Bytes, count: Bytes, after: Bytes, head: Bytes, middle: Bytes)
    requires IsAscii(opening) && IsAscii(count) && IsAscii(after) && IsAscii(head) && IsAscii(middle)
    requires |opening| + |count| + |after| + |head| + |middle| <= 181
    ensures Proper(Wording(opening + count, after + head, middle))
  {
  }

  lemma WordingIsProper()
    ensures Proper(WORDING)
  {
    OpeningWordsAreAscii();
    CountWordsAreAscii();
    AfterWordsAreAscii();
    HeadWordsAreAscii();
    ProperWording(OPENING_WORDS, COUNT_WORDS, AFTER_WORDS, HEAD_WORDS, TAIL_WORDS);
  }

  function Frame(w: Wording, omitted: nat, head: Bytes, tail: Bytes): Bytes {
    w.opening + Text.Decimal(omitted) + w.afterCount + head + w.middle + tail
  }

  /** compactJSONTextValueForContext. */
  function CompactedText(w: Wording, text: Bytes): Bytes {
    if |text| <= LIMIT then text
    else
      var head, tail := text[..LastBoundary(text, HEAD_LIMIT)], text[FirstBoundary(text, |text| - TAIL_LIMIT)..];
      Framed(w, text, head, tail)
  }

  function Framed(w: Wording, text: Bytes, head: Bytes, tail: Bytes): Bytes {
    Frame(w, if |head| + |tail| > |text| then 0 else |text| - |head| - |tail|, head, tail)
  }

  method CompactText(w: Wording, text: Bytes) returns (out: Bytes)
    ensures out == CompactedText(w, text)
  {
    if |text| <= LIMIT {
      return text;
    }
    var head := CutPrefix(text, HEAD_LIMIT);
    var tail := CutSuffix(text, TAIL_LIMIT);
    out := Framed(w, text, head, tail);
  }

  lemma {:induction false} FirstIsFirst(text: Bytes, start: int, k: nat)
    requires start <= k <= |text| && Boundary(text, k)
    ensures FirstBoundary(text, start) <= k
    decreases |text| - start
  {
    if 0 < start < |text| && IsContinuation(text[start]) {
      FirstIsFirst(text, start + 1, k);
    }
  }

  /** `out` abbreviates a long text: the longest prefix of at most 700 bytes and the longest suffix of at
      most 500 that end and start at a rune, each after its words, with the count of bytes between them. */
  ghost predicate Abbreviates(w: Wording, text: Bytes, out: Bytes) {
    exists head: nat, tail: nat :: Cuts(text, head, tail) &&
      out == w.opening + Text.Decimal(tail - head) + w.afterCount + text[..head] + w.middle + text[tail..]
  }

  predicate Cuts(text: Bytes, head: nat, tail: nat) {
    && head <= 700 && head <= tail <= |text| && |text| - tail <= 500
    && Boundary(text, head) && Boundary(text, tail)
    && (forall k :: head < k <= 700 && k <= |text| ==> !Boundary(text, k))
    && (forall k :: 0 <= k < tail && |text| - 500 <= k ==> !Boundary(text, k))
  }

  lemma CompactedTextAbbreviates(w: Wording, text: Bytes)
    requires |text| > 1400
    ensures Abbreviates(w, text, CompactedText(w, text))
  {
    var head, tail := CompactedTextHolds(w, text);
    assert Cuts(text, head, tail);
  }

  /** What replaces a long string: its longest prefix of at most 700 bytes and its longest suffix of at most
      500 that end and start at a rune, each after its words, with the exact count of bytes between them. */
  lemma {:induction false} CompactedTextHolds(w: Wording, text: Bytes) returns (head: nat, tail: nat)
    requires |text| > 1400
    ensures head <= 700 && head < tail <= |text| && |text| - tail <= 500
    ensures Boundary(text, head) && Boundary(text, tail)
    ensures forall k :: head < k <= 700 ==> !Boundary(text, k)
    ensures forall k :: |text| - 500 <= k < tail ==> !Boundary(text, k)
    ensures CompactedText(w, text) ==
              w.opening + Text.Decimal(tail - head) + w.afterCount + text[..head] + w.middle + text[tail..]
  {
    head, tail := LastBoundary(text, 700), FirstBoundary(text, |text| - 500);
    forall k | head < k <= 700
      ensures !Boundary(text, k)
    {
      if Boundary(text, k) {
        LastIsLast(text, 700, k);
      }
    }
    forall k | |text| - 500 <= k < tail
      ensures !Boundary(text, k)
    {
      if Boundary(text, k) {
        FirstIsFirst(text, |text| - 500, k);
      }
    }
  }

  function Power10(k: nat): nat {
    if k == 0 then 1 else 10 * Power10(k - 1)
  }

  lemma {:induction false} DecimalLength(n: nat, k: nat)
    requires k > 0 && n < Power10(k)
    ensures |Text.Decimal(n)| <= k
    decreases n
  {
    if n >= 10 {
      assert k > 1;
      DecimalLength(n / 10, k - 1);
    }
  }

  lemma CountLength(omitted: nat)
    requires omitted <= MAX_LENGTH
    ensures |Text.Decimal(omitted)| <= 19
  {
    assert Power10(4) == 10_000;
    assert Power10(8) == 100_000_000;
    assert Power10(12) == 1000_000_000_000;
    assert Power10(16) == 10_000_000_000_000_000;
    assert Power10(19) == 10_000_000_000_000_000_000;
    DecimalLength(omitted, 19);
  }

  /** A replaced string is strictly shorter and short enough to be left alone next time. */
  lemma CompactedTextIsShort(w: Wording, text: Bytes)
    requires Proper(w)
    requires |text| <= MAX_LENGTH
    ensures |CompactedText(w, text)| <= LIMIT && (|text| > LIMIT ==> |CompactedText(w, text)| < |text|)
    ensures CompactedText(w, CompactedText(w, text)) == CompactedText(w, text)
  {
    if |text| > LIMIT {
      var head, tail := LastBoundary(text, HEAD_LIMIT), |text| - FirstBoundary(text, |text| - TAIL_LIMIT);
      CountLength(|text| - head - tail);
    }
  }

  /** Well-formed text stays well-formed. */
  lemma CompactedTextIsValid(w: Wording, text: Bytes)
    requires Proper(w)
    requires ValidUtf8(text)
    ensures ValidUtf8(CompactedText(w, text))
  {
    if |text| > LIMIT {
      var h, t := LastBoundary(text, HEAD_LIMIT), FirstBoundary(text, |text| - TAIL_LIMIT);
      var head, tail := text[..h], text[t..];
      ValidCut(text, h);
      ValidCut(text, t);
      FramedIsValid(w, text, head, tail);
    }
  }

  lemma FrameIsValid(w: Wording, omitted: nat, head: Bytes, tail: Bytes)
    requires Proper(w) && ValidUtf8(head) && ValidUtf8(tail)
    ensures ValidUtf8(Frame(w, omitted, head, tail))
  {
    var count := Text.Decimal(omitted);
    AsciiIsValid(w.opening);
    AsciiIsValid(count);
    AsciiIsValid(w.afterCount);
    AsciiIsValid(w.middle);
    ValidConcat(w.opening, count);
    ValidConcat(w.opening + count, w.afterCount);
    ValidConcat(w.opening + count + w.afterCount, head);
    ValidConcat(w.opening + count + w.afterCount + head, w.middle);
    ValidConcat(w.opening + count + w.afterCount + head + w.middle, tail);
  }

  lemma FramedIsValid(w: Wording, text: Bytes, head: Bytes, tail: Bytes)
    requires Proper(w) && ValidUtf8(head) && ValidUtf8(tail)
    ensures ValidUtf8(Framed(w, text, head, tail))
  {
    FrameIsValid(w, if |head| + |tail| > |text| then 0 else |text| - |head| - |tail|, head, tail);
  }

  // ---------- a whole value ----------

  /** compactJSONStringsForContext. */
  function Compacted(w: Wording, value: Json): Json {
    match value
    case Str(text) => Str(CompactedText(w, text))
    case Arr(items) => Arr(seq(|items|, i requires 0 <= i < |items| => Compacted(w, items[i])))
    case Obj(fields) =>
      Obj(seq(|fields|, i requires 0 <= i < |fields| => Field(fields[i].key, Compacted(w, fields[i].value))))
    case _ => value
  }

  method CompactStrings(w: Wording, value: Json) returns (out: Json, changed: bool)
    ensures out == Compacted(w, value) && changed == (out != value)
    decreases value
  {
    out, changed := value, false;
    match value {
      case Str(text) =>
        var compacted := CompactText(w, text);
        if compacted != text {
          out, changed := Str(compacted), true;
        }
      case Arr(items) =>
        var done;
        done, changed := CompactItems(w, items);
        out := Arr(done);
      case Obj(fields) =>
        var done;
        done, changed := CompactFields(w, fields);
        out := Obj(done);
      case _ =>
    }
  }

  method CompactItems(w: Wording, items: seq<Json>) returns (done: seq<Json>, changed: bool)
    ensures |done| == |items| && forall k :: 0 <= k < |items| ==> done[k] == Compacted(w, items[k])
    ensures changed == (done != items)
    decreases items
  {
    done, changed := [], false;
    for i := 0 to |items|
      invariant |done| == i && forall k :: 0 <= k < i ==> done[k] == Compacted(w, items[k])
      invariant changed <==> exists k :: 0 <= k < i && done[k] != items[k]
    {
      var item, itemChanged := CompactStrings(w, items[i]);
      done, changed := done + [item], changed || itemChanged;
    }
  }

  method CompactFields(w: Wording, fields: seq<Field>) returns (done: seq<Field>, changed: bool)
    ensures |done| == |fields| && forall k :: 0 <= k < |fields| ==> done[k] == Field(fields[k].key, Compacted(w, fields[k].value))
    ensures changed == (done != fields)
    decreases fields
  {
    done, changed := [], false;
    for i := 0 to |fields|
      invariant |done| == i && forall k :: 0 <= k < i ==> done[k] == Field(fields[k].key, Compacted(w, fields[k].value))
      invariant changed <==> exists k :: 0 <= k < i && done[k] != fields[k]
    {
      var item, itemChanged := CompactStrings(w, fields[i].value);
      done, changed := done + [Field(fields[i].key, item)], changed || itemChanged;
    }
  }

  /** The same value but for strings: the same keys in the same order, the same lengths, the same
      numbers, and every string either untouched and short or long and abbreviated. */
  ghost predicate SameShape(w: Wording, value: Json, out: Json) {
    match value
    case Str(text) =>
      && out.Str?
      && (|text| <= LIMIT ==> out.text == text)
      && (|text| > LIMIT ==> |out.text| <= LIMIT && Abbreviates(w, text, out.text))
    case Arr(items) =>
      && out.Arr? && |out.items| == |items|
      && forall i :: 0 <= i < |items| ==> SameShape(w, items[i], out.items[i])
    case Obj(fields) =>
      && out.Obj? && |out.fields| == |fields|
      && forall i :: 0 <= i < |fields| ==> out.fields[i].key == fields[i].key && SameShape(w, fields[i].value, out.fields[i].value)
    case _ => out == value
  }

  /** Every string of the value satisfies `p`. */
  ghost predicate AllText(value: Json, p: Bytes -> bool) {
    match value
    case Str(text) => p(text)
    case Arr(items) => forall i :: 0 <= i < |items| ==> AllText(items[i], p)
    case Obj(fields) => forall i :: 0 <= i < |fields| ==> AllText(fields[i].value, p)
    case _ => true
  }

  predicate Sized(text: Bytes) {
    |text| <= MAX_LENGTH
  }

  /** Compaction keeps the shape, and well-formed strings stay well-formed. */
  lemma {:induction false} CompactionKeepsShape(w: Wording, value: Json)
    requires Proper(w)
    requires AllText(value, Sized)
    ensures SameShape(w, value, Compacted(w, value))
    ensures AllText(value, ValidUtf8) ==> AllText(Compacted(w, value), ValidUtf8)
    decreases value
  {
    match value {
      case Str(text) =>
        CompactedTextIsShort(w, text);
        if |text| > LIMIT {
          CompactedTextAbbreviates(w, text);
        }
        if ValidUtf8(text) {
          CompactedTextIsValid(w, text);
        }
      case Arr(items) =>
        forall i | 0 <= i < |items|
          ensures SameShape(w, items[i], Compacted(w, value).items[i])
          ensures AllText(items[i], ValidUtf8) ==> AllText(Compacted(w, value).items[i], ValidUtf8)
        {
          CompactionKeepsShape(w, items[i]);
        }
      case Obj(fields) =>
        forall i | 0 <= i < |fields|
          ensures Compacted(w, value).fields[i].key == fields[i].key && SameShape(w, fields[i].value, Compacted(w, value).fields[i].value)
          ensures AllText(fields[i].value, ValidUtf8) ==> AllText(Compacted(w, value).fields[i].value, ValidUtf8)
        {
          CompactionKeepsShape(w, fields[i].value);
        }
      case _ =>
    }
  }

  /** A value is left alone exactly when none of its strings is long. */
  lemma {:induction false} UnchangedIffShort(w: Wording, value: Json)
    requires Proper(w)
    requires AllText(value, Sized)
    ensures Compacted(w, value) == value <==> AllText(value, text => |text| <= LIMIT)
    decreases value
  {
    var short := text => |text| <= LIMIT;
    match value {
      case Str(text) =>
        CompactedTextIsShort(w, text);
      case Arr(items) =>
        forall i | 0 <= i < |items|
          ensures Compacted(w, value).items[i] == items[i] <==> AllText(items[i], short)
        {
          UnchangedIffShort(w, items[i]);
        }
        assert Compacted(w, value).items == items <==> forall i :: 0 <= i < |items| ==> Compacted(w, value).items[i] == items[i];
      case Obj(fields) =>
        forall i | 0 <= i < |fields|
          ensures Compacted(w, value).fields[i] == fields[i] <==> AllText(fields[i].value, short)
        {
          UnchangedIffShort(w, fields[i].value);
        }
        assert Compacted(w, value).fields == fields <==> forall i :: 0 <= i < |fields| ==> Compacted(w, value).fields[i] == fields[i];
      case _ =>
    }
  }

  lemma {:induction false} ShapeIsShort(w: Wording, value: Json, out: Json)
    requires SameShape(w, value, out)
    ensures AllText(out, text => |text| <= LIMIT) && AllText(out, Sized)
    decreases value
  {
    match value {
      case Arr(items) =>
        forall i | 0 <= i < |items|
          ensures AllText(out.items[i], text => |text| <= LIMIT) && AllText(out.items[i], Sized)
        {
          ShapeIsShort(w, items[i], out.items[i]);
        }
      case Obj(fields) =>
        forall i | 0 <= i < |fields|
          ensures AllText(out.fields[i].value, text => |text| <= LIMIT) && AllText(out.fields[i].value, Sized)
        {
          ShapeIsShort(w, fields[i].value, out.fields[i].value);
        }
      case _ =>
    }
  }

  /** Compacting twice is compacting once. */
  lemma CompactionIsIdempotent(w: Wording, value: Json)
    requires Proper(w)
    requires AllText(value, Sized)
    ensures Compacted(w, Compacted(w, value)) == Compacted(w, value)
  {
    CompactionKeepsShape(w, value);
    ShapeIsShort(w, value, Compacted(w, value));
    UnchangedIffShort(w, Compacted(w, value));
  }

  // ---------- raw arguments ----------

  /** The JSON library: decoding exactly one value, and encoding, which may fail. */
  datatype Codec = Codec(decode: Bytes -> DecodeResult, encode: Json -> EncodeResult)

  datatype DecodeResult = NotJson | Decoded(value: Json)
  datatype EncodeResult = NotEncoded | Encoded(raw: Bytes)

  /** compactRawJSONForContext. */
  method CompactRaw(w: Wording, codec: Codec, raw: Bytes) returns (out: Bytes)
    ensures out == CompactedRaw(w, codec, raw)
  {
    if |raw| == 0 {
      return raw;
    }
    var decoded := codec.decode(raw);
    if decoded.NotJson? {
      return raw;
    }
    var value, changed := CompactStrings(w, decoded.value);
    if !changed {
      return raw;
    }
    var encoded := codec.encode(value);
    if encoded.NotEncoded? {
      return raw;
    }
    out := encoded.raw;
  }

  function CompactedRaw(w: Wording, codec: Codec, raw: Bytes): Bytes {
    if raw == "" then raw
    else match codec.decode(raw)
      case NotJson => raw
      case Decoded(value) =>
        if Compacted(w, value) == value then raw
        else match codec.encode(Compacted(w, value))
          case NotEncoded => raw
          case Encoded(out) => out
  }

  /** When raw arguments change, and to what: they are one JSON value with a long string, and an encoding of
      the same value with its long strings abbreviated exists; that encoding replaces them. */
  lemma RawMeaning(w: Wording, codec: Codec, raw: Bytes)
    requires Proper(w)
    requires codec.decode(raw).Decoded? ==> AllText(codec.decode(raw).value, Sized)
    ensures raw == "" || codec.decode(raw).NotJson? || AllText(codec.decode(raw).value, text => |text| <= LIMIT) ==>
              CompactedRaw(w, codec, raw) == raw
    ensures raw != "" && codec.decode(raw).Decoded? && !AllText(codec.decode(raw).value, text => |text| <= LIMIT) ==>
              exists out :: SameShape(w, codec.decode(raw).value, out) &&
                CompactedRaw(w, codec, raw) == if codec.encode(out).Encoded? then codec.encode(out).raw else raw
  {
    if raw != "" && codec.decode(raw).Decoded? {
      UnchangedIffShort(w, codec.decode(raw).value);
      CompactionKeepsShape(w, codec.decode(raw).value);
    }
  }

  /** The text is one of the value's strings. */
  ghost predicate HasText(value: Json, text: Bytes) {
    match value
    case Str(t) => text == t
    case Arr(items) => exists i :: 0 <= i < |items| && HasText(items[i], text)
    case Obj(fields) => exists i :: 0 <= i < |fields| && HasText(fields[i].value, text)
    case _ => false
  }

  lemma {:induction false} AllTextMeaning(value: Json, p: Bytes -> bool)
    ensures AllText(value, p) <==> forall text :: HasText(value, text) ==> p(text)
    decreases value
  {
    match value {
      case Str(t) =>
        assert HasText(value, t);
      case Arr(items) =>
        forall i | 0 <= i < |items|
          ensures AllText(items[i], p) <==> forall text :: HasText(items[i], text) ==> p(text)
          ensures forall text :: HasText(items[i], text) ==> HasText(value, text)
        {
          AllTextMeaning(items[i], p);
        }
      case Obj(fields) =>
        forall i | 0 <= i < |fields|
          ensures AllText(fields[i].value, p) <==> forall text :: HasText(fields[i].value, text) ==> p(text)
          ensures forall text :: HasText(fields[i].value, text) ==> HasText(value, text)
        {
          AllTextMeaning(fields[i].value, p);
        }
      case _ =>
    }
  }

  /** What was encoded reads back as a value without other strings; the order of fields may differ. */
  ghost predicate ReadsBack(codec: Codec, value: Json) {
    codec.encode(value).Encoded? ==>
      var read := codec.decode(codec.encode(value).raw);
      read.Decoded? && forall text :: HasText(read.value, text) ==> HasText(value, text)
  }

  /** Compacting arguments twice is compacting them once, whenever the one value that is encoded, the
      compacted one, reads back. */
  lemma RawIsIdempotent(w: Wording, codec: Codec, raw: Bytes)
    requires Proper(w)
    requires codec.decode(raw).Decoded? ==>
               AllText(codec.decode(raw).value, Sized) && ReadsBack(codec, Compacted(w, codec.decode(raw).value))
    ensures CompactedRaw(w, codec, CompactedRaw(w, codec, raw)) == CompactedRaw(w, codec, raw)
  {
    if raw != "" && codec.decode(raw).Decoded? {
      var compacted := Compacted(w, codec.decode(raw).value);
      CompactionKeepsShape(w, codec.decode(raw).value);
      ShapeIsShort(w, codec.decode(raw).value, compacted);
      if codec.encode(compacted).Encoded? {
        ReadBackIsShort(w, codec, compacted);
      }
    }
  }

  lemma ReadBackIsShort(w: Wording, codec: Codec, value: Json)
    requires Proper(w) && ReadsBack(codec, value) && codec.encode(value).Encoded?
    requires AllText(value, text => |text| <= LIMIT) && AllText(value, Sized)
    ensures
      var read := codec.decode(codec.encode(value).raw);
      read.Decoded? && Compacted(w, read.value) == read.value
  {
    var read := codec.decode(codec.encode(value).raw).value;
    var short := text => |text| <= LIMIT;
    AllTextMeaning(value, short);
    AllTextMeaning(value, Sized);
    AllTextMeaning(read, short);
    AllTextMeaning(read, Sized);
    UnchangedIffShort(w, read);
  }
}
