/** The chain-of-thought post-processing of old/V2/chatbot_manager.py: the
    model is asked to wrap its reasoning in `<tag>…</tag>` sections, and the
    reply shown to the user is either the `<output>` section alone or every
    configured section, labelled and iconised. The call to the model itself
    is outside the model: its reply text is a parameter. */
module ChatbotManager {
  import opened Outcomes
  import opened Text

  function OpenTag(tag: string): string { "<" + tag + ">" }

  function CloseTag(tag: string): string { "</" + tag + ">" }

  /** There is a `<tag>` at `p` and a `</tag>` at some `q` after its end. */
  predicate PairFrom(text: string, tag: string, p: nat, q: nat)
  {
    OccursAt(text, OpenTag(tag), p) && p + |OpenTag(tag)| <= q && OccursAt(text, CloseTag(tag), q)
  }

  /** `re.search(f'<{tag}>(.*?)</{tag}>', text, re.DOTALL)` on a tag without
      regular-expression metacharacters: the bounds `(b, e)` of group 1. */
  function SearchTag(text: string, tag: string): (m: Option<(nat, nat)>)
    ensures m.Some? ==> m.value.0 <= m.value.1 <= |text|
  {
    match FindFrom(text, OpenTag(tag), 0)
    case None => None
    case Some(p) =>
      var b := p + |OpenTag(tag)|;
      match FindFrom(text, CloseTag(tag), b)
      case None => None
      case Some(e) => Some((b, e))
  }

  /** A match starts right after the leftmost `<tag>` and, the group being
      non-greedy, ends at the first `</tag>` after it, newlines being
      ordinary characters. */
  lemma SearchTagFound(text: string, tag: string)
    requires SearchTag(text, tag).Some?
    ensures var (b, e) := SearchTag(text, tag).value;
      && |OpenTag(tag)| <= b <= e
      && PairFrom(text, tag, b - |OpenTag(tag)|, e)
      && (forall p: nat :: p < b - |OpenTag(tag)| ==> !OccursAt(text, OpenTag(tag), p))
      && (forall q :: b <= q < e ==> !OccursAt(text, CloseTag(tag), q))
  {
    var open, close := OpenTag(tag), CloseTag(tag);
    var p := FindFrom(text, open, 0).value;
    var b := p + |open|;
    var e := FindFrom(text, close, b).value;
    assert SearchTag(text, tag).value == (b, e);
    FindFromSpec(text, open, 0);
    FindFromSpec(text, close, b);
    assert PairFrom(text, tag, p, e);
  }

  /** Without a match, no `<tag>` is followed by a `</tag>`. */
  lemma NoMatchNoPair(text: string, tag: string)
    requires SearchTag(text, tag).None?
    ensures forall p, q :: !PairFrom(text, tag, p, q)
  {
    var open, close := OpenTag(tag), CloseTag(tag);
    FindFromSpec(text, open, 0);
    if FindFrom(text, open, 0).Some? {
      var p := FindFrom(text, open, 0).value;
      var b := p + |open|;
      assert FindFrom(text, close, b).None?;
      FindFromSpec(text, close, b);
      forall p': nat, q: nat | OccursAt(text, open, p') && p' + |open| <= q
        ensures !OccursAt(text, close, q)
      {
        assert p <= p';
      }
    }
  }

  /** There is no match exactly when no `<tag>` is followed by a `</tag>`. */
  lemma SearchTagMissing(text: string, tag: string)
    ensures SearchTag(text, tag).None? <==> forall p, q :: !PairFrom(text, tag, p, q)
  {
    if SearchTag(text, tag).Some? {
      SearchTagFound(text, tag);
      var (b, e) := SearchTag(text, tag).value;
      assert PairFrom(text, tag, b - |OpenTag(tag)|, e);
    } else {
      NoMatchNoPair(text, tag);
    }
  }

  /** What `SearchTag` finds is the regular-expression match, and there is
      none exactly when no `<tag>` is followed by a `</tag>`. */
  lemma SearchTagSpec(text: string, tag: string)
    ensures var m := SearchTag(text, tag);
      m.Some? ==> var (b, e) := m.value;
      && |OpenTag(tag)| <= b <= e
      && PairFrom(text, tag, b - |OpenTag(tag)|, e)
      && (forall p: nat :: p < b - |OpenTag(tag)| ==> !OccursAt(text, OpenTag(tag), p))
      && (forall q :: b <= q < e ==> !OccursAt(text, CloseTag(tag), q))
    ensures SearchTag(text, tag).None? <==> forall p, q :: !PairFrom(text, tag, p, q)
  {
    if SearchTag(text, tag).Some? {
      SearchTagFound(text, tag);
    }
    SearchTagMissing(text, tag);
  }

  /** The content of the first `<tag>…</tag>` pair, stripped. */
  function TagContent(text: string, tag: string): string
    requires SearchTag(text, tag).Some?
  {
    var m := SearchTag(text, tag).value;
    Strip(text[m.0..m.1])
  }

  /** The show_process = False branch of `_cot_reflection`: the stripped
      `<output>` content, or the whole reply when there is no such pair. */
  function ExtractOutput(fullResponse: string): string
  {
    if SearchTag(fullResponse, "output").Some? then TagContent(fullResponse, "output") else fullResponse
  }

  /** Without an `<output>…</output>` pair the reply is returned unchanged. */
  lemma NoOutputPairUnchanged(fullResponse: string)
    requires forall p, q :: !PairFrom(fullResponse, "output", p, q)
    ensures ExtractOutput(fullResponse) == fullResponse
  {
    SearchTagSpec(fullResponse, "output");
  }

  /** A `<tag>` at `p` with no `<tag>` before it, followed by a `</tag>` at
      `e` with none in between, is what `SearchTag` finds. */
  lemma SearchTagAt(text: string, tag: string, p: nat, e: nat)
    requires PairFrom(text, tag, p, e)
    requires forall p': nat :: p' < p ==> !OccursAt(text, OpenTag(tag), p')
    requires forall q :: p + |OpenTag(tag)| <= q < e ==> !OccursAt(text, CloseTag(tag), q)
    ensures SearchTag(text, tag) == Some((p + |OpenTag(tag)|, e))
  {
    SearchTagMissing(text, tag);
    SearchTagFound(text, tag);
    var (b', e') := SearchTag(text, tag).value;
    assert b' - |OpenTag(tag)| == p;
    assert e' == e;
  }

  /** The output pair found by `SearchTagAt` gives its stripped content. */
  lemma ExtractAt(text: string, p: nat, e: nat)
    requires PairFrom(text, "output", p, e)
    requires forall p': nat :: p' < p ==> !OccursAt(text, OpenTag("output"), p')
    requires forall q :: p + |OpenTag("output")| <= q < e ==> !OccursAt(text, CloseTag("output"), q)
    ensures p + |OpenTag("output")| <= e
    ensures ExtractOutput(text) == Strip(text[p + |OpenTag("output")|..e])
  {
    SearchTagAt(text, "output", p, e);
  }

  /** Where the pieces of `before + "<output>" + content + "</output>" + after` sit. */
  lemma WrappedLayout(before: string, content: string, after: string)
    ensures var text := before + "<output>" + content + "</output>" + after;
      var b := |before| + 8;
      var e := b + |content|;
      && e + 9 <= |text|
      && OccursAt(text, OpenTag("output"), |before|)
      && OccursAt(text, CloseTag("output"), e)
      && text[b..e] == content
      && text[..b] == before + "<output>"
      && text[b..e + 9] == content + "</output>"
  {
    var text := before + "<output>" + content + "</output>" + after;
    var b := |before| + 8;
    var e := b + |content|;
    assert OpenTag("output") == "<output>" && CloseTag("output") == "</output>";
    assert text[|before|..b] == "<output>";
    assert text[e..e + 9] == "</output>";
    assert text[b..e] == content;
    assert text[..b] == before + "<output>";
    assert text[b..e + 9] == content + "</output>";
  }

  /** Round trip: an answer wrapped in `<output>…</output>` comes back
      stripped, when no `<output>` starts inside the text before it and no
      `</output>` starts inside the answer. */
  lemma ExtractWrapped(before: string, content: string, after: string)
    requires forall i :: 0 <= i < |before| ==> !OccursAt(before + "<output>", "<output>", i)
    requires forall i :: 0 <= i < |content| ==> !OccursAt(content + "</output>", "</output>", i)
    ensures ExtractOutput(before + "<output>" + content + "</output>" + after) == Strip(content)
  {
    var text := before + "<output>" + content + "</output>" + after;
    var b := |before| + 8;
    var e := b + |content|;
    WrappedLayout(before, content, after);
    assert OpenTag("output") == "<output>" && CloseTag("output") == "</output>";
    NoOccurrenceInWindow(text, "<output>", 0, b, before + "<output>", |before|);
    NoOccurrenceInWindow(text, "</output>", b, e + 9, content + "</output>", |content|);
    ExtractAt(text, |before|, e);
    assert |OpenTag("output")| == 8;
    assert ExtractOutput(text) == Strip(text[b..e]);
    assert text[b..e] == content;
  }

  /** The group of the `<output>` match holds no closing tag: the pair ends
      at the first `</output>` after its start. */
  lemma GroupHasNoCloseTag(fullResponse: string)
    requires SearchTag(fullResponse, "output").Some?
    ensures var (b, e) := SearchTag(fullResponse, "output").value;
      forall i :: !OccursAt(fullResponse[b..e], "</output>", i)
  {
    SearchTagSpec(fullResponse, "output");
    var (b, e) := SearchTag(fullResponse, "output").value;
    assert CloseTag("output") == "</output>";
    forall i: nat ensures !OccursAt(fullResponse[b..e], "</output>", i) {
      if OccursAt(fullResponse[b..e], "</output>", i) {
        OccursInSlice(fullResponse, "</output>", b, e, i);
      }
    }
  }

  /** The extracted content never contains the closing tag. */
  lemma ExtractedHasNoCloseTag(fullResponse: string)
    requires SearchTag(fullResponse, "output").Some?
    ensures forall i :: !OccursAt(ExtractOutput(fullResponse), "</output>", i)
  {
    GroupHasNoCloseTag(fullResponse);
    var (b, e) := SearchTag(fullResponse, "output").value;
    StripKeepsAbsent(fullResponse[b..e], "</output>");
  }

  /** The labelled block one matched tag contributes in show_process mode. */
  function Section(icon: string, tag: string, content: string): string
  {
    icon + " **" + Capitalize(tag) + ":**\n" + content + "\n\n"
  }

  /** What one configured tag contributes: its block, or nothing when the
      text has no `<tag>…</tag>` pair. */
  function Contribution(text: string, tag: string, icon: string): string
  {
    if SearchTag(text, tag).Some? then Section(icon, tag, TagContent(text, tag)) else ""
  }

  /** The block of each configured tag, in configuration order. */
  function Pieces(tags: seq<(string, string)>, text: string): (ps: seq<string>)
    ensures |ps| == |tags|
    ensures forall i :: 0 <= i < |tags| ==> ps[i] == Contribution(text, tags[i].0, tags[i].1)
  {
    seq(|tags|, i requires 0 <= i < |tags| => Contribution(text, tags[i].0, tags[i].1))
  }

  /** The concatenated blocks of the configured tags, in configuration order. */
  function Sections(tags: seq<(string, string)>, text: string): string
  {
    Concat(Pieces(tags, text))
  }

  /** Blocks follow the configuration order: the tags split anywhere give
      the blocks of the first part followed by those of the second. */
  lemma SectionsAppend(tags1: seq<(string, string)>, tags2: seq<(string, string)>, text: string)
    ensures Sections(tags1 + tags2, text) == Sections(tags1, text) + Sections(tags2, text)
  {
    var all := Pieces(tags1 + tags2, text);
    var split := Pieces(tags1, text) + Pieces(tags2, text);
    forall i | 0 <= i < |all| ensures all[i] == split[i] {
      if i < |tags1| {
        assert (tags1 + tags2)[i] == tags1[i];
      } else {
        assert (tags1 + tags2)[i] == tags2[i - |tags1|];
      }
    }
    assert all == split;
    ConcatAppend(Pieces(tags1, text), Pieces(tags2, text));
  }

  /** One more configured tag adds its own block at the end. */
  lemma SectionsStep(tags: seq<(string, string)>, t: nat, text: string)
    requires t < |tags|
    ensures Sections(tags[..t + 1], text) == Sections(tags[..t], text) + Contribution(text, tags[t].0, tags[t].1)
  {
    assert tags[..t + 1] == tags[..t] + [tags[t]];
    SectionsAppend(tags[..t], [tags[t]], text);
    var c := Contribution(text, tags[t].0, tags[t].1);
    assert Pieces([tags[t]], text) == [c];
    ConcatSingle(c);
  }

  /** When no configured tag has a pair the assembled text is empty. */
  lemma {:induction false} NoMatchingTagIsEmpty(tags: seq<(string, string)>, text: string)
    requires forall k :: 0 <= k < |tags| ==> SearchTag(text, tags[k].0).None?
    ensures Sections(tags, text) == ""
  {
    if tags != [] {
      var init := tags[..|tags| - 1];
      NoMatchingTagIsEmpty(init, text);
      assert Pieces(tags, text)[..|tags| - 1] == Pieces(init, text);
    }
  }

  /** The show_process = True branch of `_cot_reflection`: the loop over the
      configured tags that appends one labelled block per matched tag, and
      the final strip. */
  method FormatProcess(tags: seq<(string, string)>, fullResponse: string) returns (formatted: string)
    ensures formatted == Strip(Sections(tags, fullResponse))
  {
    var acc := "";
    for t := 0 to |tags|
      invariant acc == Sections(tags[..t], fullResponse)
    {
      SectionsStep(tags, t, fullResponse);
      var tag := tags[t].0;
      var icon := tags[t].1;
      var m := SearchTag(fullResponse, tag);
      ghost var before := acc;
      if m.Some? {
        var content := Strip(fullResponse[m.value.0..m.value.1]);
        acc := acc + Section(icon, tag, content);
      }
      assert acc == before + Contribution(fullResponse, tag, icon);
    }
    assert tags[..|tags|] == tags;
    formatted := Strip(acc);
  }

  /** ChatbotManager._cot_reflection. */
  method CotReflection(tags: seq<(string, string)>, fullResponse: string, showProcess: bool) returns (r: string)
    ensures showProcess ==> r == Strip(Sections(tags, fullResponse))
    ensures !showProcess ==> r == ExtractOutput(fullResponse)
  {
    if showProcess {
      r := FormatProcess(tags, fullResponse);
    } else {
      var m := SearchTag(fullResponse, "output");
      r := if m.Some? then Strip(fullResponse[m.value.0..m.value.1]) else fullResponse;
    }
  }

  /** ChatbotManager.get_response after the call to the model, whose reply
      text is `content`: unchanged without CoT reflection, post-processed
      with it. */
  method GetResponse(tags: seq<(string, string)>, content: string, cotReflection: bool, showProcess: bool)
    returns (r: string)
    ensures !cotReflection ==> r == content
    ensures cotReflection && showProcess ==> r == Strip(Sections(tags, content))
    ensures cotReflection && !showProcess ==> r == ExtractOutput(content)
  {
    if !cotReflection {
      return content;
    }
    r := CotReflection(tags, content, showProcess);
  }
}
