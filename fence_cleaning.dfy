/** The string pipeline of services/text_svg_generation_service.py line 87
    that cleans a Markdown fence off a model reply before it is decoded:
    strip(), lstrip('```json'), rstrip('```'), strip(). */
module FenceCleaning {
  import opened PyStr

  /** The characters `lstrip('```json')` removes: it takes a set of
      characters, not a prefix. */
  const FenceChars: set<char> := {'`', 'j', 's', 'o', 'n'}

  /** Line 87: strip, lstrip('```json'), rstrip('```'), strip. */
  function CleanFence(content: string): string {
    CleanEnds(content, FenceChars, {'`'})
  }

  /** strip, lstrip(lead), rstrip(trail), strip. */
  function CleanEnds(content: string, lead: set<char>, trail: set<char>): (r: string)
    ensures r == [] || (!IsSpace(r[0]) && !IsSpace(r[|r| - 1]))
  {
    Strip(RStrip(LStrip(Strip(content), lead), trail))
  }

  /** The cleaned text is a contiguous piece of the content: the pipeline
      only cuts characters off the two ends. */
  lemma CleanFenceSlice(content: string) returns (i: nat, j: nat)
    ensures i <= j <= |content| && CleanFence(content) == content[i..j]
  {
    i, j := CleanEndsSlice(content, FenceChars, {'`'});
  }

  lemma CleanEndsSlice(content: string, lead: set<char>, trail: set<char>) returns (i: nat, j: nat)
    ensures i <= j <= |content| && CleanEnds(content, lead, trail) == content[i..j]
  {
    var i1, j1 := LeadingSlice(content, lead);
    var i2, j2 := TrailingSlice(LStrip(Strip(content), lead), trail);
    i, j := SliceOfSlice(content, LStrip(Strip(content), lead), CleanEnds(content, lead, trail), i1, j1, i2, j2);
  }

  lemma SliceOfSlice(s: string, outer: string, inner: string, i: nat, j: nat, a: nat, b: nat) returns (i': nat, j': nat)
    requires i <= j <= |s| && outer == s[i..j]
    requires a <= b <= |outer| && inner == outer[a..b]
    ensures i' <= j' <= |s| && inner == s[i'..j']
  {
    ComposeSlices(s, outer, inner, i, j, a, b);
    i', j' := i + a, i + b;
  }

  /** The first two steps cut a slice. */
  lemma LeadingSlice(content: string, lead: set<char>) returns (i: nat, j: nat)
    ensures i <= j <= |content| && LStrip(Strip(content), lead) == content[i..j]
  {
    var i1, j1 := StripSlice(content);
    var k := LStripSlice(Strip(content), lead);
    i, j := DropOfSlice(content, Strip(content), LStrip(Strip(content), lead), i1, j1, k);
  }

  lemma DropOfSlice(s: string, outer: string, inner: string, i: nat, j: nat, a: nat) returns (i': nat, j': nat)
    requires i <= j <= |s| && outer == s[i..j]
    requires a <= |outer| && inner == outer[a..]
    ensures i' <= j' <= |s| && inner == s[i'..j']
  {
    ComposeDrop(s, outer, inner, i, j, a);
    i', j' := i + a, j;
  }

  /** The last two steps cut a slice. */
  lemma TrailingSlice(s: string, trail: set<char>) returns (i: nat, j: nat)
    ensures i <= j <= |s| && Strip(RStrip(s, trail)) == s[i..j]
  {
    var k := RStripSlice(s, trail);
    var i1, j1 := StripSlice(RStrip(s, trail));
    PrefixIsSlice(s, RStrip(s, trail), k);
    ComposeSlices(s, RStrip(s, trail), Strip(RStrip(s, trail)), 0, k, i1, j1);
    i, j := i1, j1;
  }

  lemma LStripSlice(s: string, chars: set<char>) returns (k: nat)
    ensures k <= |s| && LStrip(s, chars) == s[k..]
  {
    k := |s| - |LStrip(s, chars)|;
  }

  lemma RStripSlice(s: string, chars: set<char>) returns (k: nat)
    ensures k <= |s| && RStrip(s, chars) == s[..k]
  {
    k := |RStrip(s, chars)|;
  }

  /** A slice of a slice is a slice. */
  lemma ComposeSlices(s: string, outer: string, inner: string, i: nat, j: nat, a: nat, b: nat)
    requires i <= j <= |s| && outer == s[i..j]
    requires a <= b <= |outer| && inner == outer[a..b]
    ensures inner == s[i + a..i + b]
  {
    assert |inner| == b - a;
    forall n | 0 <= n < |inner|
      ensures inner[n] == s[i + a..i + b][n]
    {
    }
  }

  /** A suffix of a slice is a slice. */
  lemma ComposeDrop(s: string, outer: string, inner: string, i: nat, j: nat, a: nat)
    requires i <= j <= |s| && outer == s[i..j]
    requires a <= |outer| && inner == outer[a..]
    ensures inner == s[i + a..j]
  {
    assert |inner| == j - i - a;
    forall n | 0 <= n < |inner|
      ensures inner[n] == s[i + a..j][n]
    {
    }
  }

  lemma PrefixIsSlice(s: string, prefix: string, k: nat)
    requires k <= |s| && prefix == s[..k]
    ensures prefix == s[0..k]
  {
  }

  /** Any leading run of the five characters goes, whatever order they come
      in: "json", "son" or "nos" are removed as readily as "```json". */
  lemma FenceIsACharacterSet(run: string, body: string)
    requires forall k :: 0 <= k < |run| ==> run[k] in FenceChars
    ensures LStrip(run + body, FenceChars) == LStrip(body, FenceChars)
  {
    LStripSkips(run, body, FenceChars);
  }

  /** Any trailing run of backticks goes. */
  lemma TrailingBackticks(body: string, run: string)
    requires forall k :: 0 <= k < |run| ==> run[k] == '`'
    ensures RStrip(body + run, {'`'}) == RStrip(body, {'`'})
  {
    RStripSkips(body, run, {'`'});
  }

  /** A reply whose content is a bare keyword loses letters too: "null"
      loses its "n" and is cleaned to "ull". */
  lemma BareNullLosesLetter()
    ensures CleanFence("null") == "ull"
  {
    NullFacts();
    Unwrapped("n", [], "ull", [], [], FenceChars, {'`'});
  }

  lemma NullFacts()
    ensures "null" == "n" + [] + "ull" + [] + []
    ensures "n"[0] in FenceChars && "ull"[0] !in FenceChars && "ull"[2] != '`'
    ensures !IsSpace("n"[0]) && !IsSpace("ull"[0]) && !IsSpace("ull"[2])
  {
  }

  /** A fenced reply "```json" + blank + object + blank + "```" is cleaned
      to exactly the object, whatever whitespace surrounds it. */
  lemma FenceUnwrapped(blank1: string, obj: string, blank2: string)
    requires forall k :: 0 <= k < |blank1| ==> IsSpace(blank1[k])
    requires forall k :: 0 <= k < |blank2| ==> IsSpace(blank2[k])
    requires |obj| >= 2 && obj[0] == '{' && obj[|obj| - 1] == '}'
    ensures CleanFence("```json" + blank1 + obj + blank2 + "```") == obj
  {
    FenceFacts();
    Unwrapped("```json", blank1, obj, blank2, "```", FenceChars, {'`'});
  }

  lemma FenceFacts()
    ensures forall k :: 0 <= k < |"```json"| ==> "```json"[k] in FenceChars
    ensures forall k :: 0 <= k < |"```"| ==> "```"[k] in {'`'}
    ensures '{' !in FenceChars && '}' !in {'`'}
    ensures !IsSpace('{') && !IsSpace('}') && !IsSpace('`')
    ensures "```json"[0] == '`' && "```"[2] == '`'
  {
    assert "```json" == ['`', '`', '`', 'j', 's', 'o', 'n'];
    assert "```" == ['`', '`', '`'];
  }

  /** The shape of a fenced reply in general: an opener from the leading
      set, blank space, a body whose ends are neither blank nor stripped,
      blank space and a closer from the trailing set. The cleaner returns
      exactly the body. */
  lemma Unwrapped(opener: string, blank1: string, body: string, blank2: string, closer: string,
                  lead: set<char>, trail: set<char>)
    requires opener != [] && !IsSpace(opener[0])
    requires forall k :: 0 <= k < |opener| ==> opener[k] in lead
    requires forall k :: 0 <= k < |blank1| ==> IsSpace(blank1[k]) && blank1[k] !in lead
    requires body != [] && !IsSpace(body[0]) && !IsSpace(body[|body| - 1])
    requires body[0] !in lead && body[|body| - 1] !in trail
    requires forall k :: 0 <= k < |blank2| ==> IsSpace(blank2[k]) && blank2[k] !in trail
    requires closer == [] ==> blank2 == []
    requires closer != [] ==> !IsSpace(closer[|closer| - 1])
    requires forall k :: 0 <= k < |closer| ==> closer[k] in trail
    ensures CleanEnds(opener + blank1 + body + blank2 + closer, lead, trail) == body
  {
    var inner := blank1 + body + blank2;
    var rest := inner + closer;
    var content := opener + blank1 + body + blank2 + closer;
    assert content == opener + rest;
    InnerEnds(blank1, body, blank2, closer, lead, trail);
    OuterStripKeeps(opener, rest);
    OpenerStripped(opener, rest, lead);
    CloserStripped(inner, closer, trail);
    BlankStripped(blank1, body, blank2);
    Stages(content, rest, inner, body, lead, trail);
  }

  /** What follows the opener starts with a character lstrip keeps and ends
      with one strip keeps; what precedes the closer ends with one rstrip
      keeps. */
  lemma InnerEnds(blank1: string, body: string, blank2: string, closer: string, lead: set<char>, trail: set<char>)
    requires forall k :: 0 <= k < |blank1| ==> IsSpace(blank1[k]) && blank1[k] !in lead
    requires body != [] && !IsSpace(body[|body| - 1])
    requires body[0] !in lead && body[|body| - 1] !in trail
    requires forall k :: 0 <= k < |blank2| ==> blank2[k] !in trail
    requires closer == [] ==> blank2 == []
    requires closer != [] ==> !IsSpace(closer[|closer| - 1])
    ensures var rest := blank1 + body + blank2 + closer;
      rest != [] && rest[0] !in lead && !IsSpace(rest[|rest| - 1])
    ensures var inner := blank1 + body + blank2;
      inner != [] && inner[|inner| - 1] !in trail
  {
    var inner := blank1 + body + blank2;
    var rest := inner + closer;
    assert rest[0] == (if blank1 == [] then body[0] else blank1[0]);
    assert rest[|rest| - 1] == (if closer == [] then body[|body| - 1] else closer[|closer| - 1]);
    assert inner[|inner| - 1] == (if blank2 == [] then body[|body| - 1] else blank2[|blank2| - 1]);
  }

  /** The four steps, one result at a time. */
  lemma Stages(content: string, s2: string, s3: string, r: string, lead: set<char>, trail: set<char>)
    requires Strip(content) == content
    requires LStrip(content, lead) == s2
    requires RStrip(s2, trail) == s3
    requires Strip(s3) == r
    ensures CleanEnds(content, lead, trail) == r
  {
  }

  /** The first strip leaves a content that starts with the opener and ends
      with the closer (or the body) unchanged. */
  lemma OuterStripKeeps(opener: string, rest: string)
    requires opener != [] && !IsSpace(opener[0])
    requires rest != [] && !IsSpace(rest[|rest| - 1])
    ensures Strip(opener + rest) == opener + rest
  {
    var content := opener + rest;
    assert content[0] == opener[0];
    assert content[|content| - 1] == rest[|rest| - 1];
    NoSpaceEnds(content);
  }

  /** lstrip(lead) removes the opener and stops at the next character. */
  lemma OpenerStripped(opener: string, rest: string, lead: set<char>)
    requires forall k :: 0 <= k < |opener| ==> opener[k] in lead
    requires rest == [] || rest[0] !in lead
    ensures LStrip(opener + rest, lead) == rest
  {
    LStripSkips(opener, rest, lead);
    KeepsLeading(rest, lead);
  }

  /** rstrip(trail) removes the closer and stops at the character before. */
  lemma CloserStripped(inner: string, closer: string, trail: set<char>)
    requires forall k :: 0 <= k < |closer| ==> closer[k] in trail
    requires inner == [] || inner[|inner| - 1] !in trail
    ensures RStrip(inner + closer, trail) == inner
  {
    RStripSkips(inner, closer, trail);
    KeepsTrailing(inner, trail);
  }

  /** The last strip removes the blank space around the body. */
  lemma BlankStripped(blank1: string, body: string, blank2: string)
    requires forall k :: 0 <= k < |blank1| ==> IsSpace(blank1[k])
    requires forall k :: 0 <= k < |blank2| ==> IsSpace(blank2[k])
    requires body != [] && !IsSpace(body[0]) && !IsSpace(body[|body| - 1])
    ensures Strip(blank1 + body + blank2) == body
  {
    assert blank1 + body + blank2 == blank1 + (body + blank2);
    DropWhileSkips(blank1, body + blank2, IsSpace);
    KeepsFirst(body + blank2, IsSpace);
    DropLastWhileSkips(body, blank2, IsSpace);
    KeepsLast(body, IsSpace);
  }

  /** A strip leaves a string whose two ends are not whitespace unchanged. */
  lemma NoSpaceEnds(s: string)
    requires s != [] && !IsSpace(s[0]) && !IsSpace(s[|s| - 1])
    ensures Strip(s) == s
  {
    KeepsFirst(s, IsSpace);
    KeepsLast(s, IsSpace);
  }

  lemma KeepsFirst(s: string, p: char -> bool)
    requires s == [] || !p(s[0])
    ensures DropWhile(s, p) == s
  {
  }

  lemma KeepsLast(s: string, p: char -> bool)
    requires s == [] || !p(s[|s| - 1])
    ensures DropLastWhile(s, p) == s
  {
  }

  lemma KeepsLeading(s: string, chars: set<char>)
    requires s == [] || s[0] !in chars
    ensures LStrip(s, chars) == s
  {
  }

  lemma KeepsTrailing(s: string, chars: set<char>)
    requires s == [] || s[|s| - 1] !in chars
    ensures RStrip(s, chars) == s
  {
  }
}
