/**
 * patches/system_hoist.py: moving role="system" messages into the top-level system text.
 */
module Hoist {
  import opened Wrappers
  import opened Lists
  import opened Text

  // A content block: a dict with its "text" (None when absent or not truthy), a bare string, or
  // anything else.
  datatype Block = Dict(text: Option<string>) | Bare(words: string) | Foreign

  // A content value; `Other` carries its str().
  datatype Content = Missing | Plain(words: string) | Blocks(blocks: seq<Block>) | Other(rendered: string)

  // A message is a dict with a role and a content (and more), or something else.
  datatype Message<X> = Turn(role: string, content: Content, extra: X) | Strange(value: X)

  // The request: a dict whose "messages" is a list, or any other value.  `system` is Missing when
  // the key is absent or null.
  datatype Request<X> = Body(messages: seq<Message<X>>, system: Content, extra: X) | Unshaped(value: X)

  const GAP: string := "\n\n"

  // ---------------------------------------------------------------- flattening content

  function Parts(blocks: seq<Block>): seq<string> {
    if blocks == [] then []
    else
      var rest, block := Parts(blocks[..|blocks| - 1]), blocks[|blocks| - 1];
      match block
      case Dict(text) => if text.Some? && text.value != "" then rest + [text.value] else rest
      case Bare(words) => rest + [words]
      case Foreign => rest
  }

  function TextOf(content: Content): string {
    match content
    case Missing => ""
    case Plain(words) => words
    case Blocks(blocks) => Join(Parts(blocks), GAP)
    case Other(rendered) => rendered
  }

  method AnthropicText(content: Content) returns (text: string)
    ensures text == TextOf(content)
  {
    match content
    case Missing => return "";
    case Plain(words) => return words;
    case Blocks(blocks) =>
      var parts: seq<string> := [];
      for i := 0 to |blocks|
        invariant parts == Parts(blocks[..i])
      {
        assert blocks[..i + 1][..i] == blocks[..i];
        match blocks[i] {
          case Dict(text) => if text.Some? && text.value != "" { parts := parts + [text.value]; }
          case Bare(words) => parts := parts + [words];
          case Foreign =>
        }
      }
      assert blocks[..|blocks|] == blocks;
      return Join(parts, GAP);
    case Other(rendered) => return rendered;
  }

  // The words of a block: the string it is, or the text it has if that is not empty.
  predicate HasWords(block: Block, words: string) {
    block == Bare(words) || (words != "" && block == Dict(Some(words)))
  }

  // What the text of a list of blocks is: the words of its blocks, with a blank line between neighbours.
  lemma TextOfBlocks(blocks: seq<Block>) returns (from: seq<nat>, parts: seq<string>)
    ensures TextOf(Blocks(blocks)) == Join(parts, "\n\n") && Gathered(blocks, HasWords, from, parts)
  {
    from := PartsAreWhere(blocks);
    parts := Parts(blocks);
  }

  lemma {:induction false} PartsAreWhere(blocks: seq<Block>) returns (from: seq<nat>)
    ensures Gathered(blocks, HasWords, from, Parts(blocks))
  {
    hide Gathered;
    if blocks == [] {
      from := [];
      NothingGathered<Block>(HasWords);
    } else {
      var init, last := blocks[..|blocks| - 1], blocks[|blocks| - 1];
      from := PartsAreWhere(init);
      assert blocks == init + [last];
      if last.Bare? {
        GatherOne(init, HasWords, from, Parts(init), last, last.words);
        from := from + [|init|];
      } else if last.Dict? && last.text.Some? && last.text.value != "" {
        GatherOne(init, HasWords, from, Parts(init), last, last.text.value);
        from := from + [|init|];
      } else {
        GatherNone(init, HasWords, from, Parts(init), last);
      }
    }
  }

  // And of any other content.
  lemma TextOfOthers(words: string)
    ensures TextOf(Missing) == "" && TextOf(Plain(words)) == words && TextOf(Other(words)) == words
  {
  }

  // ---------------------------------------------------------------- hoisting

  predicate IsSystem<X>(m: Message<X>) {
    m.Turn? && m.role == "system"
  }

  // The messages that are not system messages, in order.
  function Kept<X>(messages: seq<Message<X>>): seq<Message<X>> {
    if messages == [] then []
    else
      var rest, last := Kept(messages[..|messages| - 1]), messages[|messages| - 1];
      if IsSystem(last) then rest else rest + [last]
  }

  // The texts of those that are, in order.
  function Hoisted<X>(messages: seq<Message<X>>): seq<string> {
    if messages == [] then []
    else
      var rest, last := Hoisted(messages[..|messages| - 1]), messages[|messages| - 1];
      if IsSystem(last) then rest + [TextOf(last.content)] else rest
  }

  function NonEmpty(parts: seq<string>): seq<string> {
    if parts == [] then []
    else
      var rest, last := NonEmpty(parts[..|parts| - 1]), parts[|parts| - 1];
      if last == "" then rest else rest + [last]
  }

  function Existing(system: Content): seq<string> {
    if system.Missing? then [] else [TextOf(system)]
  }

  function HoistedRequest<X>(data: Request<X>): Request<X> {
    if data.Unshaped? || Hoisted(data.messages) == [] then data
    else data.(messages := Kept(data.messages),
               system := Plain(Join(NonEmpty(Existing(data.system) + Hoisted(data.messages)), GAP)))
  }

  method HoistSystemMessages<X(==)>(data: Request<X>) returns (patched: Request<X>)
    ensures patched == HoistedRequest(data)
  {
    hide TextOf, NonEmpty, Join;
    if data.Unshaped? { return data; }
    var messages := data.messages;
    var hoisted: seq<string> := [];
    var kept: seq<Message<X>> := [];
    for i := 0 to |messages|
      invariant hoisted == Hoisted(messages[..i]) && kept == Kept(messages[..i])
    {
      assert messages[..i + 1][..i] == messages[..i];
      if messages[i].Turn? && messages[i].role == "system" {
        var text := AnthropicText(messages[i].content);
        hoisted := hoisted + [text];
      } else {
        kept := kept + [messages[i]];
      }
    }
    assert messages[..|messages|] == messages;
    if hoisted == [] { return data; }
    var parts: seq<string> := [];
    if !data.system.Missing? {
      var existing := AnthropicText(data.system);
      parts := parts + [existing];
    }
    assert parts == Existing(data.system);
    parts := parts + hoisted;
    var wanted := DropEmpty(parts);
    patched := data.(messages := kept, system := Plain(Join(wanted, GAP)));
  }

  method DropEmpty(parts: seq<string>) returns (wanted: seq<string>)
    ensures wanted == NonEmpty(parts)
  {
    wanted := [];
    for i := 0 to |parts|
      invariant wanted == NonEmpty(parts[..i])
    {
      assert parts[..i + 1][..i] == parts[..i];
      if parts[i] != "" { wanted := wanted + [parts[i]]; }
    }
    assert parts[..|parts|] == parts;
  }

  // ---------------------------------------------------------------- what is kept

  // The kept messages are exactly the others, in their order: `from` says where each one stood.
  lemma {:induction false} KeptAreTheOthers<X>(messages: seq<Message<X>>) returns (from: seq<nat>)
    ensures |from| == |Kept(messages)|
    ensures forall i :: 0 <= i < |from| ==>
      from[i] < |messages| && messages[from[i]] == Kept(messages)[i] && !IsSystem(messages[from[i]])
    ensures forall i, j :: 0 <= i < j < |from| ==> from[i] < from[j]
    ensures forall k :: 0 <= k < |messages| && !IsSystem(messages[k]) ==> k in from
    ensures |Hoisted(messages)| + |from| == |messages|
  {
    from := [];
    if messages != [] {
      var init, last := messages[..|messages| - 1], messages[|messages| - 1];
      from := KeptAreTheOthers(init);
      if !IsSystem(last) { from := from + [|init|]; }
    }
  }

  lemma {:induction false} ConcatLaws<X>(a: seq<Message<X>>, b: seq<Message<X>>)
    ensures Kept(a + b) == Kept(a) + Kept(b)
    ensures Hoisted(a + b) == Hoisted(a) + Hoisted(b)
  {
    if b == [] {
      assert a + b == a;
    } else {
      ConcatLaws(a, b[..|b| - 1]);
      assert (a + b)[..|a + b| - 1] == a + b[..|b| - 1];
    }
  }

  lemma {:induction false} KeptIsKept<X>(messages: seq<Message<X>>)
    ensures Kept(Kept(messages)) == Kept(messages)
    ensures Hoisted(Kept(messages)) == []
  {
    if messages != [] {
      KeptIsKept(messages[..|messages| - 1]);
      var rest := Kept(messages[..|messages| - 1]);
      assert (rest + [messages[|messages| - 1]])[..|rest|] == rest;
    }
  }

  // ---------------------------------------------------------------- joining

  lemma {:induction false} NonEmptyConcat(p: seq<string>, q: seq<string>)
    ensures NonEmpty(p + q) == NonEmpty(p) + NonEmpty(q)
  {
    if q == [] {
      assert p + q == p;
    } else {
      NonEmptyConcat(p, q[..|q| - 1]);
      assert (p + q)[..|p + q| - 1] == p + q[..|q| - 1];
    }
  }

  lemma {:induction false} NonEmptyHasNone(p: seq<string>)
    ensures "" !in NonEmpty(p)
  {
    if p != [] { NonEmptyHasNone(p[..|p| - 1]); }
  }

  // Dropping empties and joining may be done to a first group of parts before the rest.
  lemma JoinInTwo(p: seq<string>, q: seq<string>)
    ensures Join(NonEmpty([Join(NonEmpty(p), GAP)] + q), GAP) == Join(NonEmpty(p + q), GAP)
  {
    var first, rest := NonEmpty(p), NonEmpty(q);
    var j := Join(first, GAP);
    NonEmptyConcat(p, q);
    NonEmptyConcat([j], q);
    NonEmptyHasNone(p);
    assert [j][..0] == [];
    if first == [] {
      assert NonEmpty([j]) == [] && first + rest == rest && [] + rest == rest;
    } else {
      assert first[0] in first;
      assert j != "";
      assert NonEmpty([j]) == [j];
      if rest == [] {
        assert first + rest == first && [j] + rest == [j];
      } else {
        JoinConcat(first, rest, GAP);
        JoinConcat([j], rest, GAP);
        assert ([j] + rest)[1..] == rest;
      }
    }
  }

  // ---------------------------------------------------------------- batches

  function Plus<X>(data: Request<X>, more: seq<Message<X>>): Request<X>
    requires data.Body?
  {
    data.(messages := data.messages + more)
  }

  // Hoisting, adding messages and hoisting again is adding them first and hoisting once.
  lemma HoistingInBatches<X>(data: Request<X>, more: seq<Message<X>>)
    requires data.Body?
    ensures HoistedRequest(Plus(HoistedRequest(data), more)) == HoistedRequest(Plus(data, more))
  {
    hide Kept, Hoisted, NonEmpty, Join;
    var a := data.messages;
    ConcatLaws(a, more);
    if Hoisted(a) != [] {
      var p, h := Existing(data.system) + Hoisted(a), Hoisted(more);
      ConcatLaws(Kept(a), more);
      KeptIsKept(a);
      JoinInTwo(p, h);
      assert [] + h == h && p + h == Existing(data.system) + (Hoisted(a) + h);
      if h == [] {
        NothingHoisted(more);
        assert p + h == p;
      }
    } else {
      assert HoistedRequest(data) == data;
    }
  }

  lemma {:induction false} NothingHoisted<X>(messages: seq<Message<X>>)
    requires Hoisted(messages) == []
    ensures Kept(messages) == messages
  {
    if messages != [] { NothingHoisted(messages[..|messages| - 1]); }
  }

  // Hoisting twice is hoisting once, and afterwards no system message is left.
  lemma HoistingTwice<X>(data: Request<X>)
    ensures HoistedRequest(HoistedRequest(data)) == HoistedRequest(data)
    ensures data.Body? ==> forall m :: m in HoistedRequest(data).messages ==> !IsSystem(m)
  {
    if data.Body? {
      KeptIsKept(data.messages);
      if Hoisted(data.messages) == [] { NothingHoisted(data.messages); }
      var from := KeptAreTheOthers(data.messages);
    }
  }

  // ---------------------------------------------------------------- the new system text

  // A system message that has these words, and they are not empty.
  predicate Asks<X>(m: Message<X>, words: string) {
    m.Turn? && m.role == "system" && words == TextOf(m.content) != ""
  }

  // A request without system messages is left alone. Of any other the system text becomes the text there
  // was and those of its system messages, in their order, empty ones left out, joined by blank lines.
  lemma HoistedSystem<X(!new)>(data: Request<X>) returns (from: seq<nat>, parts: seq<string>)
    requires data.Body?
    ensures Gathered(data.messages, (m, words) => Asks(m, words), from, parts)
    ensures var some := exists k :: 0 <= k < |data.messages| && data.messages[k].Turn? && data.messages[k].role == "system";
      HoistedRequest(data) ==
        if !some then data
        else Body(
          Kept(data.messages),
          Plain(Join((if data.system.Missing? || TextOf(data.system) == "" then [] else [TextOf(data.system)]) + parts, "\n\n")),
          data.extra)
  {
    hide TextOf, Gathered;
    from := WantedAreWhere(data.messages);
    parts := NonEmpty(Hoisted(data.messages));
    HoistedIsEmpty(data.messages);
    NonEmptyConcat(Existing(data.system), Hoisted(data.messages));
    OneOrNone(data.system);
  }

  lemma OneOrNone(system: Content)
    ensures NonEmpty(Existing(system)) == if system.Missing? || TextOf(system) == "" then [] else [TextOf(system)]
  {
    hide TextOf;
    if !system.Missing? { assert [TextOf(system)][..0] == []; }
  }

  lemma {:induction false} HoistedIsEmpty<X>(messages: seq<Message<X>>)
    ensures Hoisted(messages) != [] <==> exists k :: 0 <= k < |messages| && messages[k].Turn? && messages[k].role == "system"
  {
    hide TextOf;
    if messages != [] {
      var init, last := messages[..|messages| - 1], messages[|messages| - 1];
      HoistedIsEmpty(init);
      if k :| 0 <= k < |init| && init[k].Turn? && init[k].role == "system" { assert messages[k] == init[k]; }
    }
  }

  lemma {:induction false} WantedAreWhere<X(!new)>(messages: seq<Message<X>>) returns (from: seq<nat>)
    ensures Gathered(messages, (m, words) => Asks(m, words), from, NonEmpty(Hoisted(messages)))
  {
    hide TextOf, Gathered;
    var asks := (m: Message<X>, words: string) => Asks(m, words);
    if messages == [] {
      from := [];
      NothingGathered<Message<X>>(asks);
    } else {
      var init, last := messages[..|messages| - 1], messages[|messages| - 1];
      from := WantedAreWhere(init);
      assert messages == init + [last];
      var h := Hoisted(init);
      if IsSystem(last) {
        assert (h + [TextOf(last.content)])[..|h|] == h;
      }
      if IsSystem(last) && TextOf(last.content) != "" {
        GatherOne(init, asks, from, NonEmpty(h), last, TextOf(last.content));
        from := from + [|init|];
      } else {
        GatherNone(init, asks, from, NonEmpty(h), last);
      }
    }
  }

  lemma {:induction false} JoinHolds(parts: seq<string>, i: nat) returns (before: string, after: string)
    requires i < |parts|
    ensures Join(parts, GAP) == before + parts[i] + after
  {
    if i == 0 {
      before, after := "", if |parts| == 1 then "" else GAP + Join(parts[1..], GAP);
      if |parts| > 1 { assert parts[0] + GAP + Join(parts[1..], GAP) == "" + parts[0] + after; }
    } else {
      var b, a := JoinHolds(parts[1..], i - 1);
      before, after := parts[0] + GAP + b, a;
      assert parts[0] + GAP + (b + parts[i] + a) == before + parts[i] + after;
    }
  }

  // So no words of a system message are lost.
  lemma NoWordsAreLost<X(!new)>(data: Request<X>, k: nat) returns (before: string, after: string)
    requires data.Body? && k < |data.messages| && data.messages[k].Turn? && data.messages[k].role == "system"
    ensures HoistedRequest(data).system == Plain(before + TextOf(data.messages[k].content) + after)
  {
    hide TextOf, HoistedRequest, Join, Kept;
    var from, parts := HoistedSystem(data);
    var first := if data.system.Missing? || TextOf(data.system) == "" then [] else [TextOf(data.system)];
    var words := TextOf(data.messages[k].content);
    if words == "" {
      before, after := Join(first + parts, GAP), "";
      assert before + words + after == before;
    } else {
      var asks := (m: Message<X>, words: string) => Asks(m, words);
      assert Gathered(data.messages, asks, from, parts) && asks(data.messages[k], words);
      var i :| 0 <= i < |from| && from[i] == k;
      assert (first + parts)[|first| + i] == words;
      before, after := JoinHolds(first + parts, |first| + i);
    }
  }
}
