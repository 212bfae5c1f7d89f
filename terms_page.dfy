/** The legal page of src/pages/TermsPage.tsx: a line-by-line Markdown
    renderer and the choice between the two legal documents. The document
    texts themselves come from a generated bundle and are parameters. */
module TermsPage {
  import opened Wrappers
  import opened Text

  /** One rendered element per source line. */
  datatype Element =
    | H1(text: string)
    | H2(text: string)
    | Bold(text: string)
    | Break
    | Paragraph(text: string)

  /** `s.indexOf(pat)`: the first position where `pat` occurs. */
  function IndexOf(s: string, pat: string, from: nat): (r: Option<nat>)
    requires from <= |s|
    ensures r.Some? ==> from <= r.value && OccursAt(s, pat, r.value)
    ensures r.Some? ==> forall k :: from <= k < r.value ==> !OccursAt(s, pat, k)
    ensures r.None? ==> forall k :: from <= k <= |s| ==> !OccursAt(s, pat, k)
    decreases |s| - from
  {
    if |s| - from < |pat| then None
    else if s[from..from + |pat|] == pat then Some(from)
    else IndexOf(s, pat, from + 1)
  }

  /** `s.replace(pat, '')` with a string pattern: only the first occurrence
      is removed. */
  function RemoveFirst(s: string, pat: string): string {
    match IndexOf(s, pat, 0)
    case None => s
    case Some(k) => s[..k] + s[k + |pat|..]
  }

  /** When the line starts with the pattern, the first occurrence is the
      prefix itself, so removing it leaves the rest of the line. */
  lemma RemoveFirstPrefix(s: string, pat: string)
    requires StartsWith(s, pat)
    ensures RemoveFirst(s, pat) == s[|pat|..]
  {
    assert OccursAt(s, pat, 0);
  }

  /** `s.replace(/\*\*\/g, '')`: every `**` found scanning left to right,
      without overlaps, is removed. */
  function RemoveDoubleStars(s: string): string {
    if |s| < 2 then s
    else if s[0] == '*' && s[1] == '*' then RemoveDoubleStars(s[2..])
    else [s[0]] + RemoveDoubleStars(s[1..])
  }

  /** The characters of `s` other than `*`, in order. */
  function NonStars(s: string): string {
    if s == [] then [] else (if s[0] == '*' then [] else [s[0]]) + NonStars(s[1..])
  }

  predicate NoDoubleStar(s: string) {
    forall i :: 0 <= i < |s| - 1 ==> !(s[i] == '*' && s[i + 1] == '*')
  }

  /** After the removal no `**` is left, every character other than `*` is
      kept in order, and the stars removed came in pairs. */
  lemma {:induction false} RemoveDoubleStarsProps(s: string)
    ensures NoDoubleStar(RemoveDoubleStars(s))
    ensures NonStars(RemoveDoubleStars(s)) == NonStars(s)
    ensures (|s| - |RemoveDoubleStars(s)|) % 2 == 0
    ensures |s| > 0 && s[0] != '*' ==> |RemoveDoubleStars(s)| > 0 && RemoveDoubleStars(s)[0] == s[0]
    decreases |s|
  {
    if |s| < 2 {
    } else if s[0] == '*' && s[1] == '*' {
      RemoveDoubleStarsProps(s[2..]);
      assert NonStars(s) == NonStars(s[1..]) == NonStars(s[2..]);
    } else {
      var rest := RemoveDoubleStars(s[1..]);
      RemoveDoubleStarsProps(s[1..]);
      var r := [s[0]] + rest;
      assert r == RemoveDoubleStars(s);
      if s[0] == '*' {
        assert |rest| > 0 && rest[0] == s[1];
      }
      assert forall i :: 0 < i < |r| - 1 ==> r[i] == rest[i - 1] && r[i + 1] == rest[i];
    }
  }

  /** No `**` is left, in the sense of `includes`. */
  lemma NoDoubleStarContains(s: string)
    requires NoDoubleStar(s)
    ensures !Contains(s, "**")
  {
    forall k | 0 <= k <= |s| - 2
      ensures !OccursAt(s, "**", k)
    {
      assert s[k..k + 2][0] == s[k] && s[k..k + 2][1] == s[k + 1];
    }
  }

  /** `MarkdownDisplay`'s if-chain for one line. */
  function Classify(line: string): Element {
    if StartsWith(line, "# ") then H1(RemoveFirst(line, "# "))
    else if StartsWith(line, "## ") then H2(RemoveFirst(line, "## "))
    else if StartsWith(line, "**") then Bold(RemoveDoubleStars(line))
    else if Trim(line) == "" then Break
    else Paragraph(line)
  }

  /** `content.split('\n').map(...)`. */
  function Render(content: string): (r: seq<Element>)
    ensures |r| == |Split(content, '\n')|
  {
    var lines := Split(content, '\n');
    seq(|lines|, i requires 0 <= i < |lines| => Classify(lines[i]))
  }

  /** One element per line: one more than there are newlines, each the
      classification of its own line. */
  lemma OneElementPerLine(content: string, i: nat)
    requires i < |Split(content, '\n')|
    ensures |Render(content)| == Occurrences(content, '\n') + 1
    ensures Render(content)[i] == Classify(Split(content, '\n')[i])
  {
    SplitCount(content, '\n');
  }

  /** `# ` and `## ` lines become headings holding the rest of the line;
      the two prefixes never compete, since `## ` does not start with `# `. */
  lemma Headings(line: string)
    ensures StartsWith(line, "# ") ==> Classify(line) == H1(line[2..])
    ensures StartsWith(line, "## ") ==> Classify(line) == H2(line[3..])
  {
    if StartsWith(line, "# ") {
      RemoveFirstPrefix(line, "# ");
    }
    if StartsWith(line, "## ") {
      assert line[1] == '#';
      assert !StartsWith(line, "# ");
      RemoveFirstPrefix(line, "## ");
    }
  }

  /** A `**` line becomes a bold paragraph without any `**`, keeping every
      other character. */
  lemma BoldLine(line: string)
    requires StartsWith(line, "**")
    ensures Classify(line).Bold?
    ensures !Contains(Classify(line).text, "**")
    ensures NonStars(Classify(line).text) == NonStars(line)
  {
    assert line[0] == '*';
    RemoveDoubleStarsProps(line);
    NoDoubleStarContains(RemoveDoubleStars(line));
  }

  /** A line is a break exactly when it is empty or all whitespace, and a
      paragraph keeps its line unchanged. */
  lemma BreaksAndParagraphs(line: string)
    ensures Classify(line) == Break <==> AllWhitespace(line)
    ensures Classify(line).Paragraph? ==> Classify(line).text == line
    ensures Classify(line).Paragraph? <==>
      !StartsWith(line, "# ") && !StartsWith(line, "## ") && !StartsWith(line, "**") && !AllWhitespace(line)
  {
    TrimEmptyIff(line);
    if AllWhitespace(line) && |line| > 0 {
      assert IsWhitespace(line[0]);
    }
  }

  /** A hash without the space is not a heading. */
  lemma HashWithoutSpace()
    ensures Classify("#Title") == Paragraph("#Title")
  {
    var line := "#Title";
    assert line[..2] != "# " by { assert line[..2][1] == 'T'; }
    assert line[..3] != "## " by { assert line[..3][1] == 'T'; }
    assert line[..2] != "**" by { assert line[..2][0] == '#'; }
    assert !IsWhitespace(line[0]);
    TrimNonEmpty(line, 0);
  }

  datatype Tab = Privacy | Terms

  /** The tab shown first: `initialTab`, by default the terms. */
  function InitialTab(initialTab: Option<Tab>): Tab {
    initialTab.GetOr(Terms)
  }

  /** The document for the active tab. */
  function DocumentFor(tab: Tab, privacyPolicy: string, termsOfUse: string): string {
    if tab == Privacy then privacyPolicy else termsOfUse
  }

  /** The privacy tab shows the privacy policy, every other state the
      terms, and a page opened without a tab starts on the terms. */
  lemma DocumentChoice(tab: Tab, privacyPolicy: string, termsOfUse: string)
    ensures tab != Privacy ==> DocumentFor(tab, privacyPolicy, termsOfUse) == termsOfUse
    ensures DocumentFor(InitialTab(None), privacyPolicy, termsOfUse) == termsOfUse
    ensures DocumentFor(InitialTab(Some(Privacy)), privacyPolicy, termsOfUse) == privacyPolicy
  {
  }
}
