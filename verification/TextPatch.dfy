/**
 * The text transformation of patches/apply_patch.py: two anchored insertions, guarded by a
 * sentinel.  Both presence checks run before the first replacement.
 */
module TextPatch {
  import opened Wrappers

  predicate At(text: string, pat: string, i: int) {
    0 <= i <= i + |pat| <= |text| && text[i..i + |pat|] == pat
  }

  // str.find: the first place at or after `from`.
  function Find(text: string, pat: string, from: nat): (i: Option<nat>)
    requires from <= |text|
    ensures i.Some? ==> i.value + |pat| <= |text|
    ensures i.Some? ==> At(text, pat, i.value) && from <= i.value && forall k :: from <= k < i.value ==> !At(text, pat, k)
    ensures i.None? ==> forall k :: from <= k ==> !At(text, pat, k)
    decreases |text| - from
  {
    if At(text, pat, from) then Some(from)
    else if from == |text| then None
    else Find(text, pat, from + 1)
  }

  predicate Contains(text: string, pat: string) {
    Find(text, pat, 0).Some?
  }

  // str.replace with a count of one.
  function ReplaceFirst(text: string, pat: string, replacement: string): string {
    var i := Find(text, pat, 0);
    if i.None? then text else text[..i.value] + replacement + text[i.value + |pat|..]
  }

  function Inserted(text: string, i: nat, piece: string): string
    requires i <= |text|
  {
    text[..i] + piece + text[i..]
  }

  // ---------------------------------------------------------------- the constants

  const SENTINEL: string := "_hoist_system_messages"
  const IMPORT_FROM: string := "from vllm.entrypoints."
  const IMPORT_MODULE: string := "anthropic._system_hoist "
  const IMPORT_WHAT: string := "import hoist_system_messages\n"
  const IMPORT_LINE: string := IMPORT_FROM + IMPORT_MODULE + IMPORT_WHAT
  const CLASS_ANCHOR: string := "class AnthropicMessagesRequest(BaseModel):"
  const DOCSTRING_ANCHOR: string := "    \"\"\"Anthropic Messages API request\"\"\""

  const IMPORT_PIECE: string := IMPORT_LINE + "\n\n"

  // ---------------------------------------------------------------- the transformation

  datatype Outcome = AlreadyPatched | NoClass | NoDocstring | Patched(text: string)

  // The validator's source may be any text that holds the sentinel, as the name of its method.
  method ApplyPatch(text: string, validator: string) returns (outcome: Outcome)
    ensures outcome == Result(text, validator)
  {
    hide Find, TwoInsertions, Apart, At, ReplaceFirst;
    if Contains(text, SENTINEL) { return AlreadyPatched; }
    if !Contains(text, CLASS_ANCHOR) { return NoClass; }
    if !Contains(text, DOCSTRING_ANCHOR) { return NoDocstring; }
    var now := ReplaceFirst(text, CLASS_ANCHOR, IMPORT_LINE + "\n\n" + CLASS_ANCHOR);
    now := ReplaceFirst(now, DOCSTRING_ANCHOR, DOCSTRING_ANCHOR + "\n" + validator);
    AnchorsApart();
    TwoReplacements(text, CLASS_ANCHOR, DOCSTRING_ANCHOR, IMPORT_LINE, "\n\n", "\n", validator);
    return Patched(now);
  }

  ghost function Result(text: string, validator: string): Outcome {
    if Contains(text, SENTINEL) then AlreadyPatched
    else if !Contains(text, CLASS_ANCHOR) then NoClass
    else if !Contains(text, DOCSTRING_ANCHOR) then NoDocstring
    else
      var c := Find(text, CLASS_ANCHOR, 0).value;
      var d := Find(text, DOCSTRING_ANCHOR, 0).value + |DOCSTRING_ANCHOR|;
      Patched(TwoInsertions(text, c, IMPORT_PIECE, d, "\n" + validator))
  }

  // Both pieces put in at places of the original text.
  function TwoInsertions(text: string, i: nat, p: string, j: nat, q: string): string
    requires i <= |text| && j <= |text|
  {
    if j <= i then text[..j] + q + text[j..i] + p + text[i..] else text[..i] + p + text[i..j] + q + text[j..]
  }

  // The first place of `pat`.
  predicate First(text: string, pat: string, i: int) {
    At(text, pat, i) && forall k :: 0 <= k < i ==> !At(text, pat, k)
  }

  // In plain words: a text that holds the sentinel is left alone, one without either anchor is refused, and
  // in any other the import goes before the first class anchor and the validator after the first docstring,
  // on a line of its own.
  lemma PatchMeans(text: string, validator: string) returns (c: int, d: int)
    ensures Result(text, validator).AlreadyPatched? <==> exists i :: At(text, "_hoist_system_messages", i)
    ensures Result(text, validator).NoClass? ==> forall i :: !At(text, "class AnthropicMessagesRequest(BaseModel):", i)
    ensures Result(text, validator).NoDocstring? ==>
      forall i :: !At(text, "    \"\"\"Anthropic Messages API request\"\"\"", i)
    ensures Result(text, validator).Patched? ==>
      && var doc := "    \"\"\"Anthropic Messages API request\"\"\"";
      && First(text, "class AnthropicMessagesRequest(BaseModel):", c) && First(text, doc, d)
      && var e := d + |doc|;
      var line := "from vllm.entrypoints." + "anthropic._system_hoist " + "import hoist_system_messages\n" + "\n\n";
      Result(text, validator).text ==
        if e <= c then text[..e] + ("\n" + validator) + text[e..c] + line + text[c..]
        else text[..c] + line + text[c..e] + ("\n" + validator) + text[e..]
  {
    hide Find, At;
    Nowhere(text, SENTINEL);
    Nowhere(text, CLASS_ANCHOR);
    Nowhere(text, DOCSTRING_ANCHOR);
    c, d := 0, 0;
    if Result(text, validator).Patched? {
      c, d := Find(text, CLASS_ANCHOR, 0).value, Find(text, DOCSTRING_ANCHOR, 0).value;
    }
  }

  lemma Nowhere(text: string, pat: string)
    ensures Contains(text, pat) <==> exists i :: At(text, pat, i)
  {
    hide Find;
    if i :| At(text, pat, i) { assert 0 <= i; }
  }

  // ---------------------------------------------------------------- insertion spares the other anchor

  // An insertion `ins` before an occurrence of `c` neither breaks nor makes an occurrence of `d`:
  // `d` cannot run into `c`, and nothing of `ins` can be part of it.
  predicate Apart(c: string, d: string, ins: string) {
    && |c| >= 2 && d != "" && ins != ""
    && (forall k :: 0 < k < |d| && d[k] == c[0] ==> k + 1 < |d| && d[k + 1] != c[1])
    && ins[0] !in d && ins[|ins| - 1] !in d && d[|d| - 1] !in ins
  }

  lemma NoStraddle(text: string, i: nat, c: string, d: string, q: int)
    requires At(text, c, i) && q < i < q + |d| && |c| >= 2
    requires forall k :: 0 < k < |d| && d[k] == c[0] ==> k + 1 < |d| && d[k + 1] != c[1]
    ensures !At(text, d, q)
  {
    assert text[i..i + |c|][0] == text[i] && text[i..i + |c|][1] == text[i + 1];
    if 0 <= q <= q + |d| <= |text| {
      var k := i - q;
      assert text[q..q + |d|][k] == text[i];
      if k + 1 < |d| { assert text[q..q + |d|][k + 1] == text[i + 1]; }
    }
  }

  // No occurrence of `d` uses a character of an insertion that starts and ends with characters foreign to
  // `d` and does not hold `d`.
  lemma NothingTouches(text: string, i: nat, d: string, ins: string, q: int)
    requires i <= |text| && d != "" && ins != ""
    requires ins[0] !in d && ins[|ins| - 1] !in d && forall k :: !At(ins, d, k)
    requires q < i + |ins| && i < q + |d|
    ensures !At(Inserted(text, i, ins), d, q)
  {
    var now := Inserted(text, i, ins);
    if 0 <= q <= q + |d| <= |now| {
      if q <= i || i + |ins| <= q + |d| {
        var k := if q <= i then i - q else i + |ins| - 1 - q;
        assert now[q..q + |d|][k] == now[q + k] == ins[q + k - i];
        assert d[k] != ins[q + k - i];
      } else {
        assert !At(ins, d, q - i);
        assert now[q..q + |d|] == ins[q - i..q - i + |d|];
      }
    }
  }

  lemma LastIsForeign(ins: string, d: string)
    requires d != "" && d[|d| - 1] !in ins
    ensures forall k :: !At(ins, d, k)
  {
    forall k ensures !At(ins, d, k) {
      if 0 <= k <= k + |d| <= |ins| { assert ins[k..k + |d|][|d| - 1] == ins[k + |d| - 1]; }
    }
  }

  lemma OccurrencesMove(text: string, i: nat, c: string, d: string, ins: string, q: int)
    requires At(text, c, i) && Apart(c, d, ins)
    ensures At(Inserted(text, i, ins), d, q) <==>
            (q + |d| <= i && At(text, d, q)) || (q >= i + |ins| && At(text, d, q - |ins|))
    ensures At(text, d, q) ==> q + |d| <= i || q >= i
  {
    var now := Inserted(text, i, ins);
    if q < i < q + |d| { NoStraddle(text, i, c, d, q); }
    LastIsForeign(ins, d);
    if q < i + |ins| && i < q + |d| { NothingTouches(text, i, d, ins, q); }
    if 0 <= q && q + |d| <= i { assert text[q..q + |d|] == now[q..q + |d|]; }
    if q >= i + |ins| && q + |d| <= |now| { assert text[q - |ins|..q - |ins| + |d|] == now[q..q + |d|]; }
  }

  lemma FindIs(text: string, pat: string, i: nat)
    requires At(text, pat, i) && forall k :: 0 <= k < i ==> !At(text, pat, k)
    ensures Find(text, pat, 0) == Some(i)
  {
    hide Find, At;
  }

  // The second replacement finds its anchor where the original text had it.
  lemma TwoReplacements(text: string, c: string, d: string, line: string, gap: string, newline: string, src: string)
    requires Apart(c, d, line + gap) && Contains(text, c) && Contains(text, d)
    ensures var i, j := Find(text, c, 0).value, Find(text, d, 0).value;
      ReplaceFirst(ReplaceFirst(text, c, line + gap + c), d, d + newline + src) ==
      TwoInsertions(text, i, line + gap, j + |d|, newline + src)
  {
    hide At, Apart, TwoInsertions, Find, ReplaceFirst;
    BothReplacements(text, c, d, line + gap, newline + src);
    assert d + newline + src == d + (newline + src);
  }

  lemma BothReplacements(text: string, c: string, d: string, ins: string, v: string)
    requires Apart(c, d, ins) && Contains(text, c) && Contains(text, d)
    ensures var i, j := Find(text, c, 0).value, Find(text, d, 0).value;
      ReplaceFirst(ReplaceFirst(text, c, ins + c), d, d + v) == TwoInsertions(text, i, ins, j + |d|, v)
  {
    hide At, Apart, Inserted, TwoInsertions, Find, ReplaceFirst;
    var i, j := Find(text, c, 0).value, Find(text, d, 0).value;
    var now := Inserted(text, i, ins);
    FirstReplacement(text, c, ins, i);
    AnchorMoves(text, i, c, d, ins, j);
    var f := if j + |d| <= i then j else j + |ins|;
    FindIs(now, d, f);
    ReplaceAt(now, d, d + v, f);
    AtMeans(text, d, j);
    SecondInsertion(text, i, ins, d, j, v);
  }

  lemma FirstReplacement(text: string, c: string, ins: string, i: nat)
    requires Find(text, c, 0) == Some(i)
    ensures ReplaceFirst(text, c, ins + c) == Inserted(text, i, ins)
  {
    hide Inserted;
    ReplaceAt(text, c, ins + c, i);
    FirstInsertion(text, i, c, ins);
  }

  lemma ReplaceAt(text: string, pat: string, replacement: string, i: nat)
    requires Find(text, pat, 0) == Some(i)
    ensures i + |pat| <= |text| && ReplaceFirst(text, pat, replacement) == text[..i] + replacement + text[i + |pat|..]
  {
  }

  lemma AtMeans(text: string, pat: string, i: nat)
    requires At(text, pat, i) && i + |pat| <= |text|
    ensures text[i..i + |pat|] == pat
  {
  }

  lemma FirstInsertion(text: string, i: nat, c: string, ins: string)
    requires At(text, c, i)
    ensures text[..i] + (ins + c) + text[i + |c|..] == Inserted(text, i, ins)
  {
    assert text[i..] == c + text[i + |c|..];
  }

  lemma AnchorMoves(text: string, i: nat, c: string, d: string, ins: string, j: nat)
    requires i <= |text| && At(text, c, i) && Apart(c, d, ins) && At(text, d, j) && forall k :: 0 <= k < j ==> !At(text, d, k)
    ensures j + |d| <= i || j >= i
    ensures var now, f := Inserted(text, i, ins), if j + |d| <= i then j else j + |ins|;
      At(now, d, f) && forall k :: 0 <= k < f ==> !At(now, d, k)
  {
    hide At, Apart;
    var now, f := Inserted(text, i, ins), if j + |d| <= i then j else j + |ins|;
    OccurrencesMove(text, i, c, d, ins, j);
    OccurrencesMove(text, i, c, d, ins, f);
    forall k | 0 <= k < f ensures !At(now, d, k) { OccurrencesMove(text, i, c, d, ins, k); }
  }

  lemma SecondInsertion(text: string, i: nat, ins: string, d: string, j: nat, v: string)
    requires i <= |text| && j + |d| <= |text| && text[j..j + |d|] == d && (j + |d| <= i || j >= i)
    ensures var now, f := Inserted(text, i, ins), if j + |d| <= i then j else j + |ins|;
      f + |d| <= |now| && now[..f] + (d + v) + now[f + |d|..] == TwoInsertions(text, i, ins, j + |d|, v)
  {
    if j + |d| <= i { InsertedBefore(text, i, ins, d, j, v); } else { InsertedAfter(text, i, ins, d, j, v); }
  }

  lemma InsertedBefore(text: string, i: nat, ins: string, d: string, j: nat, v: string)
    requires i <= |text| && j + |d| <= i && text[j..j + |d|] == d
    ensures var now := Inserted(text, i, ins);
      j + |d| <= |now| && now[..j] + (d + v) + now[j + |d|..] == TwoInsertions(text, i, ins, j + |d|, v)
  {
    var now, e := Inserted(text, i, ins), j + |d|;
    assert text[..j] + d == text[..e];
    assert now[..j] == text[..j];
    assert now[e..] == text[e..i] + ins + text[i..];
    Regroup(text[..j], d, v, text[e..i] + ins + text[i..]);
    assert text[..e] + v + (text[e..i] + ins + text[i..]) == text[..e] + v + text[e..i] + ins + text[i..];
  }

  lemma InsertedAfter(text: string, i: nat, ins: string, d: string, j: nat, v: string)
    requires i <= j && j + |d| <= |text| && text[j..j + |d|] == d && j + |d| > i
    ensures var now, f := Inserted(text, i, ins), j + |ins|;
      f + |d| <= |now| && now[..f] + (d + v) + now[f + |d|..] == TwoInsertions(text, i, ins, j + |d|, v)
  {
    var now, e := Inserted(text, i, ins), j + |d|;
    assert now[..j + |ins|] == text[..i] + ins + text[i..j];
    assert now[e + |ins|..] == text[e..];
    Regroup(text[..i] + ins + text[i..j], d, v, text[e..]);
    assert text[i..j] + d == text[i..e];
    assert text[..i] + ins + text[i..j] + d == text[..i] + ins + (text[i..j] + d);
  }

  lemma Regroup(a: string, d: string, v: string, b: string)
    ensures a + (d + v) + b == a + d + v + b
  {
    assert a + (d + v) == a + d + v;
  }

  lemma AnchorsApart()
    ensures Apart(CLASS_ANCHOR, DOCSTRING_ANCHOR, IMPORT_LINE + "\n\n")
  {
    DocstringFacts();
    DocstringLacks();
    ImportFacts();
    ApartFrom(CLASS_ANCHOR, DOCSTRING_ANCHOR, IMPORT_LINE + "\n\n");
  }

  lemma ApartFrom(c: string, d: string, ins: string)
    requires |c| >= 2 && d != "" && ins != "" && c[0] == 'c' && c[1] == 'l'
    requires forall k :: 0 < k < |d| && d[k] == 'c' ==> k + 1 < |d| && d[k + 1] != 'l'
    requires ins[0] == 'f' && ins[|ins| - 1] == '\n' && d[|d| - 1] == '"'
    requires 'f' !in d && '\n' !in d && '"' !in ins
    ensures Apart(c, d, ins)
  {
  }

  lemma DocstringFacts()
    ensures |CLASS_ANCHOR| >= 2 && CLASS_ANCHOR[0] == 'c' && CLASS_ANCHOR[1] == 'l'
    ensures |DOCSTRING_ANCHOR| == 40 && DOCSTRING_ANCHOR[39] == '"' && DOCSTRING_ANCHOR[16] != 'l'
    ensures forall k :: 0 < k < 40 && DOCSTRING_ANCHOR[k] == 'c' ==> k == 15
  {
  }

  lemma DocstringLacks()
    ensures 'f' !in DOCSTRING_ANCHOR && '\n' !in DOCSTRING_ANCHOR
  {
  }

  lemma ImportFacts()
    ensures var ins := IMPORT_LINE + "\n\n";
      ins != "" && ins[0] == 'f' && ins[|ins| - 1] == '\n' && '"' !in ins
  {
    assert '"' !in IMPORT_FROM;
    assert '"' !in IMPORT_MODULE;
    assert '"' !in IMPORT_WHAT;
  }

  // ---------------------------------------------------------------- a second run

  // A patched file is left alone by the next run.
  lemma PatchIsIdempotent(text: string, validator: string)
    requires Contains(validator, SENTINEL) && Result(text, validator).Patched?
    ensures Result(Result(text, validator).text, validator) == AlreadyPatched
  {
    hide Find, At, TwoInsertions;
    var c := Find(text, CLASS_ANCHOR, 0).value;
    var d := Find(text, DOCSTRING_ANCHOR, 0).value + |DOCSTRING_ANCHOR|;
    SentinelIsFirst(text, c, d, validator);
  }

  // ---------------------------------------------------------------- undoing it

  function Removed(text: string, i: nat, n: nat): string
    requires i + n <= |text|
  {
    text[..i] + text[i + n..]
  }

  // The text that was patched, from the patched text alone: the first sentinel shows where the validator
  // went in, and then the first class anchor where the import did.
  function Unpatch(out: string, validator: string): string {
    var piece := "\n" + validator;
    var s, v := Find(out, SENTINEL, 0), Find(piece, SENTINEL, 0);
    if s.None? || v.None? || s.value < v.value || s.value - v.value + |piece| > |out| then out
    else
      var now := Removed(out, s.value - v.value, |piece|);
      var c := Find(now, CLASS_ANCHOR, 0);
      if c.None? || c.value < |IMPORT_PIECE| then now else Removed(now, c.value - |IMPORT_PIECE|, |IMPORT_PIECE|)
  }

  lemma PatchIsReversible(text: string, validator: string)
    requires Contains(validator, SENTINEL) && Result(text, validator).Patched?
    ensures Unpatch(Result(text, validator).text, validator) == text
  {
    hide Find, At, TwoInsertions, Inserted, Removed;
    var c := Find(text, CLASS_ANCHOR, 0).value;
    var d := Find(text, DOCSTRING_ANCHOR, 0).value + |DOCSTRING_ANCHOR|;
    var piece := "\n" + validator;
    SentinelIsFirst(text, c, d, validator);
    var now, e := Inserted(text, c, IMPORT_PIECE), if d <= c then d else d + |IMPORT_PIECE|;
    TakenOut(now, e, piece);
    ClassFacts();
    SentinelFacts();
    ImportHasNoColon();
    LastIsForeign(IMPORT_PIECE, CLASS_ANCHOR);
    FirstAnchorMoves(text, c, CLASS_ANCHOR, IMPORT_PIECE);
    TakenOut(text, c, IMPORT_PIECE);
  }

  // So no two texts are patched to the same one.
  lemma PatchLosesNothing(t: string, u: string, validator: string)
    requires Contains(validator, SENTINEL) && Result(t, validator).Patched? && Result(t, validator) == Result(u, validator)
    ensures t == u
  {
    hide Result, Unpatch;
    PatchIsReversible(t, validator);
    PatchIsReversible(u, validator);
  }

  lemma TakenOut(text: string, i: nat, piece: string)
    requires i <= |text|
    ensures i + |piece| <= |Inserted(text, i, piece)| && Removed(Inserted(text, i, piece), i, |piece|) == text
  {
    assert text == text[..i] + text[i..];
  }

  lemma TwoAfterEachOther(text: string, i: nat, p: string, j: nat, q: string)
    requires i <= |text| && j <= |text|
    ensures var now, e := Inserted(text, i, p), if j <= i then j else j + |p|;
      e <= |now| && TwoInsertions(text, i, p, j, q) == Inserted(now, e, q)
  {
    var now := Inserted(text, i, p);
    if j <= i {
      assert now[..j] == text[..j] && now[j..] == text[j..i] + p + text[i..];
      assert text[..j] + q + (text[j..i] + p + text[i..]) == text[..j] + q + text[j..i] + p + text[i..];
    } else {
      assert now[..j + |p|] == text[..i] + p + text[i..j] && now[j + |p|..] == text[j..];
    }
  }

  // The first sentinel of the patched text is the validator's own first one.
  lemma SentinelIsFirst(text: string, i: nat, j: nat, validator: string)
    requires i <= |text| && j <= |text| && !Contains(text, SENTINEL) && Contains(validator, SENTINEL)
    ensures var piece, e := "\n" + validator, if j <= i then j else j + |IMPORT_PIECE|;
      && Find(piece, SENTINEL, 0).Some?
      && e <= |Inserted(text, i, IMPORT_PIECE)|
      && TwoInsertions(text, i, IMPORT_PIECE, j, piece) == Inserted(Inserted(text, i, IMPORT_PIECE), e, piece)
      && Find(TwoInsertions(text, i, IMPORT_PIECE, j, piece), SENTINEL, 0) == Some(e + Find(piece, SENTINEL, 0).value)
  {
    hide Find, At, TwoInsertions, Inserted;
    var piece, e := "\n" + validator, if j <= i then j else j + |IMPORT_PIECE|;
    TwoAfterEachOther(text, i, IMPORT_PIECE, j, piece);
    SentinelFacts();
    ImportLacksSentinel();
    StillLacks(text, i, SENTINEL, IMPORT_PIECE);
    Shifted("\n", validator, SENTINEL, Find(validator, SENTINEL, 0).value);
    assert Contains(piece, SENTINEL);
    FirstInPiece(Inserted(text, i, IMPORT_PIECE), e, SENTINEL, piece, Find(piece, SENTINEL, 0).value);
  }

  lemma Shifted(start: string, text: string, pat: string, i: nat)
    requires At(text, pat, i)
    ensures At(start + text, pat, |start| + i)
  {
    assert (start + text)[|start| + i..|start| + i + |pat|] == text[i..i + |pat|];
  }

  lemma StillLacks(text: string, i: nat, d: string, ins: string)
    requires i <= |text| && d != "" && ins != "" && forall k :: 0 <= k ==> !At(text, d, k)
    requires ins[0] !in d && ins[|ins| - 1] !in d && forall k :: !At(ins, d, k)
    ensures forall q :: !At(Inserted(text, i, ins), d, q)
  {
    var now := Inserted(text, i, ins);
    forall q ensures !At(now, d, q) {
      if q < i + |ins| && i < q + |d| {
        NothingTouches(text, i, d, ins, q);
      } else if 0 <= q && q + |d| <= i {
        assert !At(text, d, q) && text[q..q + |d|] == now[q..q + |d|];
      } else if q >= i + |ins| && q + |d| <= |now| {
        assert !At(text, d, q - |ins|) && text[q - |ins|..q - |ins| + |d|] == now[q..q + |d|];
      }
    }
  }

  lemma FirstInPiece(now: string, e: nat, d: string, piece: string, p: nat)
    requires e <= |now| && d != "" && piece != "" && piece[0] !in d
    requires forall k :: !At(now, d, k)
    requires At(piece, d, p) && forall k :: 0 <= k < p ==> !At(piece, d, k)
    ensures Find(Inserted(now, e, piece), d, 0) == Some(e + p)
  {
    hide Find;
    var out := Inserted(now, e, piece);
    assert out[e + p..e + p + |d|] == piece[p..p + |d|];
    forall q | 0 <= q < e + p ensures !At(out, d, q) {
      if q + |d| <= e {
        assert !At(now, d, q) && now[q..q + |d|] == out[q..q + |d|];
      } else if q <= e {
        assert out[q..q + |d|][e - q] == piece[0];
      } else {
        assert !At(piece, d, q - e) && out[q..q + |d|] == piece[q - e..q - e + |d|];
      }
    }
    FindIs(out, d, e + p);
  }

  lemma FirstAnchorMoves(text: string, i: nat, c: string, ins: string)
    requires i <= |text| && c != "" && ins != "" && At(text, c, i) && forall k :: 0 <= k < i ==> !At(text, c, k)
    requires ins[0] !in c && ins[|ins| - 1] !in c && forall k :: !At(ins, c, k)
    ensures Find(Inserted(text, i, ins), c, 0) == Some(i + |ins|)
  {
    hide Find;
    var now := Inserted(text, i, ins);
    assert now[i + |ins|..i + |ins| + |c|] == text[i..i + |c|];
    forall q | 0 <= q < i + |ins| ensures !At(now, c, q) {
      if q + |c| <= i {
        assert !At(text, c, q) && text[q..q + |c|] == now[q..q + |c|];
      } else {
        NothingTouches(text, i, c, ins, q);
      }
    }
    FindIs(now, c, i + |ins|);
  }

  lemma SentinelFacts()
    ensures SENTINEL != "" && 'f' !in SENTINEL && '\n' !in SENTINEL
    ensures IMPORT_PIECE != "" && IMPORT_PIECE[0] == 'f' && IMPORT_PIECE[|IMPORT_PIECE| - 1] == '\n'
  {
  }

  lemma ClassFacts()
    ensures |CLASS_ANCHOR| == 42 && CLASS_ANCHOR[41] == ':'
    ensures 'f' !in CLASS_ANCHOR && '\n' !in CLASS_ANCHOR
  {
  }

  lemma ImportHasNoColon()
    ensures ':' !in IMPORT_PIECE
  {
    assert ':' !in IMPORT_FROM;
    assert ':' !in IMPORT_MODULE;
    assert ':' !in IMPORT_WHAT;
  }

  // An underscore of the import is nowhere followed as the sentinel's first one is.
  lemma ImportLacksSentinel()
    ensures forall k :: !At(IMPORT_PIECE, SENTINEL, k)
  {
    ImportModuleFacts();
    ImportWhatFacts();
    assert SENTINEL[0] == '_' && SENTINEL[1] == 'h' && SENTINEL[6] == '_' && |SENTINEL| == 22;
    NotAmong(IMPORT_FROM, IMPORT_MODULE, IMPORT_WHAT, "\n\n", SENTINEL);
  }

  lemma NotAmong(a: string, b: string, c: string, d: string, s: string)
    requires |s| == 22 && s[0] == '_' && s[1] == 'h' && s[6] == '_'
    requires '_' !in a && '_' !in d && |b| == 24 && |c| == 29
    requires forall k :: 0 <= k < 24 && b[k] == '_' ==> k == 10 || k == 17
    requires forall k :: 0 <= k < 29 && c[k] == '_' ==> k == 12 || k == 19
    requires b[11] != 'h' && b[23] != '_' && c[13] != 'h' && c[20] != 'h'
    ensures forall k :: !At(a + b + c + d, s, k)
  {
    var p := a + b + c + d;
    forall k ensures !At(p, s, k) {
      if 0 <= k <= k + 22 <= |p| {
        assert p[k..k + 22][0] == p[k] && p[k..k + 22][1] == p[k + 1] && p[k..k + 22][6] == p[k + 6];
        if k < |a| {
          assert p[k] == a[k];
        } else if k < |a| + 24 {
          assert p[k] == b[k - |a|];
        } else if k < |a| + 53 {
          assert p[k] == c[k - |a| - 24];
        } else {
          assert p[k] == d[k - |a| - 53];
        }
      }
    }
  }

  lemma ImportModuleFacts()
    ensures '_' !in IMPORT_FROM && '_' !in "\n\n"
    ensures |IMPORT_MODULE| == 24 && IMPORT_MODULE[11] == 's' && IMPORT_MODULE[23] == ' '
    ensures forall k :: 0 <= k < 24 && IMPORT_MODULE[k] == '_' ==> k == 10 || k == 17
  {
  }

  lemma ImportWhatFacts()
    ensures |IMPORT_WHAT| == 29 && IMPORT_WHAT[13] == 's' && IMPORT_WHAT[20] == 'm'
    ensures forall k :: 0 <= k < 29 && IMPORT_WHAT[k] == '_' ==> k == 12 || k == 19
  {
  }
}
