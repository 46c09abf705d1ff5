/** `stripMarkdown` (src/lib/utils.ts): a chain of global regular-expression
    replacements followed by `trim`. Each replacement is modelled as a left-to-right
    scan over the ORIGINAL string: at every position the step's pattern is tried
    (with the backtracking outcome of the regular expression written out as a
    deterministic matcher); a match is replaced and the scan resumes after it,
    otherwise the character is kept and the scan moves on by one. */
module Markdown {
  import opened Common

  /** The replacement steps, in the order the source applies them. */
  datatype Step =
    | Headers        // ^#{1,6}\s+        -> ''
    | BoldItalic     // (\*\*|__|\*|_)(.*?)\1 -> '$2'
    | InlineCode     // `([^`]+)`         -> '$1'
    | CodeBlocks     // ```[\s\S]*?```    -> ''
    | Links          // \[([^\]]+)\]\([^)]+\) -> '$1'
    | Images         // !\[([^\]]*)\]\([^)]+\) -> '$1'
    | Strikethrough  // ~~(.*?)~~         -> '$1'
    | Blockquotes    // ^>\s+             -> ''
    | ListMarkers    // ^[-*+]\s+         -> ''
    | NumberedLists  // ^\d+\.\s+         -> ''
    | Whitespace     // \s+               -> ' '

  /** A match ends (exclusively) at `end` and is replaced by `replacement`. */
  datatype Match = Match(end: nat, replacement: string)

  datatype CharClass = Space | Hash | Digit

  predicate InClass(c: char, k: CharClass) {
    match k
    case Space => IsSpace(c)
    case Hash => c == '#'
    case Digit => '0' <= c <= '9'
  }

  /** Length of the run of characters of class `k` starting at `i` (a greedy `k+` or `k*`). */
  function CharRun(s: string, i: nat, k: CharClass): (n: nat)
    requires i <= |s|
    ensures i + n <= |s|
    ensures forall j :: i <= j < i + n ==> InClass(s[j], k)
    ensures i + n == |s| || !InClass(s[i + n], k)
    decreases |s| - i
  {
    if i < |s| && InClass(s[i], k) then 1 + CharRun(s, i + 1, k) else 0
  }

  /** In multiline mode `^` matches at the start of the input and after a line terminator. */
  predicate AtLineStart(s: string, p: nat) {
    p == 0 || (p <= |s| && IsLineTerminator(s[p - 1]))
  }

  /** The first position at or after `i` where `d` occurs, scanning one character at a time
      (a lazy `.*?` or a greedy `[^d]*` followed by `d`); with `stopAtLine` the scan may not
      cross a line terminator, as `.` does not match one. */
  function FindDelim(s: string, i: nat, d: string, stopAtLine: bool): (r: Option<nat>)
    requires i <= |s| && d != []
    ensures r.Some? ==> i <= r.value && r.value + |d| <= |s| && d <= s[r.value..]
    decreases |s| - i
  {
    if d <= s[i..] then Some(i)
    else if i < |s| && !(stopAtLine && IsLineTerminator(s[i])) then FindDelim(s, i + 1, d, stopAtLine)
    else None
  }

  /** One alternative `d(.*?)d` of the bold/italic pattern at `p`. */
  function DelimitedAt(s: string, p: nat, d: string): (m: Option<Match>)
    requires p < |s| && d != []
    ensures m.Some? ==> p < m.value.end <= |s|
  {
    if d <= s[p..] then
      match FindDelim(s, p + |d|, d, true)
      case Some(k) => Some(Match(k + |d|, s[p + |d|..k]))
      case None => None
    else None
  }

  function OrElse(a: Option<Match>, b: Option<Match>): Option<Match> {
    if a.Some? then a else b
  }

  /** `^#{1,6}\s+`: greedy `#`s, then at least one whitespace character, all of it consumed. */
  function HeaderAt(s: string, p: nat): (m: Option<Match>)
    requires p < |s|
    ensures m.Some? ==> p < m.value.end <= |s|
  {
    var h := CharRun(s, p, Hash);
    if AtLineStart(s, p) && 1 <= h <= 6 && CharRun(s, p + h, Space) >= 1 then
      Some(Match(p + h + CharRun(s, p + h, Space), ""))
    else None
  }

  /** `(\*\*|__|\*|_)(.*?)\1`: the alternatives in order; a failed one falls through to the next. */
  function EmphasisAt(s: string, p: nat): (m: Option<Match>)
    requires p < |s|
    ensures m.Some? ==> p < m.value.end <= |s|
  {
    OrElse(DelimitedAt(s, p, "**"), OrElse(DelimitedAt(s, p, "__"),
      OrElse(DelimitedAt(s, p, "*"), DelimitedAt(s, p, "_"))))
  }

  /** `` `([^`]+)` ``. */
  function InlineCodeAt(s: string, p: nat): (m: Option<Match>)
    requires p < |s|
    ensures m.Some? ==> p < m.value.end <= |s|
  {
    if s[p] == '`' then
      match FindDelim(s, p + 1, "`", false)
      case Some(j) => if j > p + 1 then Some(Match(j + 1, s[p + 1..j])) else None
      case None => None
    else None
  }

  /** ```` ```[\s\S]*?``` ````. */
  function CodeBlockAt(s: string, p: nat): (m: Option<Match>)
    requires p < |s|
    ensures m.Some? ==> p < m.value.end <= |s|
  {
    if "```" <= s[p..] then
      match FindDelim(s, p + 3, "```", false)
      case Some(k) => Some(Match(k + 3, ""))
      case None => None
    else None
  }

  /** `]` then `(`, a non-empty run without `)`, and `)`, starting at `j`; the end of the match. */
  function TargetAt(s: string, j: nat): (e: Option<nat>)
    requires j <= |s|
    ensures e.Some? ==> j < e.value <= |s|
  {
    if j + 1 < |s| && s[j] == ']' && s[j + 1] == '(' then
      match FindDelim(s, j + 2, ")", false)
      case Some(e) => if e > j + 2 then Some(e + 1) else None
      case None => None
    else None
  }

  /** `\[([^\]]+)\]\([^)]+\)` when `nonEmpty`, `!\[([^\]]*)\]\([^)]+\)` after the `!` otherwise. */
  function BracketAt(s: string, p: nat, nonEmpty: bool): (m: Option<Match>)
    requires p < |s|
    ensures m.Some? ==> p < m.value.end <= |s|
  {
    if s[p] == '[' then
      match FindDelim(s, p + 1, "]", false)
      case Some(j) =>
        if (nonEmpty ==> j > p + 1) then
          match TargetAt(s, j)
          case Some(e) => Some(Match(e, s[p + 1..j]))
          case None => None
        else None
      case None => None
    else None
  }

  function ImageAt(s: string, p: nat): (m: Option<Match>)
    requires p < |s|
    ensures m.Some? ==> p < m.value.end <= |s|
  {
    if p + 1 < |s| && s[p] == '!' then BracketAt(s, p + 1, false) else None
  }

  /** A line-start marker `c` (one of `marks`) followed by at least one whitespace character. */
  function MarkerAt(s: string, p: nat, marks: string): (m: Option<Match>)
    requires p < |s|
    ensures m.Some? ==> p < m.value.end <= |s|
  {
    if AtLineStart(s, p) && s[p] in marks && CharRun(s, p + 1, Space) >= 1 then
      Some(Match(p + 1 + CharRun(s, p + 1, Space), ""))
    else None
  }

  /** `^\d+\.\s+`. */
  function NumberedAt(s: string, p: nat): (m: Option<Match>)
    requires p < |s|
    ensures m.Some? ==> p < m.value.end <= |s|
  {
    var d := CharRun(s, p, Digit);
    if AtLineStart(s, p) && d >= 1 && p + d < |s| && s[p + d] == '.' && CharRun(s, p + d + 1, Space) >= 1 then
      Some(Match(p + d + 1 + CharRun(s, p + d + 1, Space), ""))
    else None
  }

  function MatchAt(step: Step, s: string, p: nat): (m: Option<Match>)
    requires p < |s|
    ensures m.Some? ==> p < m.value.end <= |s|
  {
    match step
    case Headers => HeaderAt(s, p)
    case BoldItalic => EmphasisAt(s, p)
    case InlineCode => InlineCodeAt(s, p)
    case CodeBlocks => CodeBlockAt(s, p)
    case Links => BracketAt(s, p, true)
    case Images => ImageAt(s, p)
    case Strikethrough => DelimitedAt(s, p, "~~")
    case Blockquotes => MarkerAt(s, p, ">")
    case ListMarkers => MarkerAt(s, p, "-*+")
    case NumberedLists => NumberedAt(s, p)
    case Whitespace => if IsSpace(s[p]) then Some(Match(p + CharRun(s, p, Space), " ")) else None
  }

  /** The global replacement of `step` on `s`, from position `p` on. */
  function ReplaceFrom(step: Step, s: string, p: nat): string
    requires p <= |s|
    decreases |s| - p
  {
    if p == |s| then []
    else
      match MatchAt(step, s, p)
      case Some(m) => m.replacement + ReplaceFrom(step, s, m.end)
      case None => [s[p]] + ReplaceFrom(step, s, p + 1)
  }

  function Replace(step: Step, s: string): string {
    ReplaceFrom(step, s, 0)
  }

  /** Every whitespace character is a plain space and no two of them are adjacent. */
  predicate Collapsed(r: string) {
    forall i :: 0 <= i < |r| && IsSpace(r[i]) ==> r[i] == ' ' && (i + 1 == |r| || !IsSpace(r[i + 1]))
  }

  /** The ten markup replacements, in the source's order, before whitespace is collapsed. */
  function StripMarkup(text: string): string {
    Replace(NumberedLists, Replace(ListMarkers, Replace(Blockquotes,
    Replace(Strikethrough, Replace(Images, Replace(Links, Replace(CodeBlocks,
    Replace(InlineCode, Replace(BoldItalic, Replace(Headers, text))))))))))
  }

  /** `stripMarkdown(text)`. */
  function StripMarkdown(text: string): (r: string)
    ensures text == "" ==> r == text
    ensures r == [] || (!IsSpace(r[0]) && !IsSpace(r[|r| - 1]))
    ensures Collapsed(r)
  {
    if text == "" then text
    else
      var c := Replace(Whitespace, StripMarkup(text));
      CollapseIsCollapsed(StripMarkup(text), 0);
      TrimKeepsCollapsed(c);
      Trim(c)
  }

  lemma TrimKeepsCollapsed(c: string)
    requires Collapsed(c)
    ensures Collapsed(Trim(c))
  {
    CollapsedSlice(c, LeadingSpaces(c), LeadingSpaces(c) + |Trim(c)|);
  }

  // ---------------------------------------------------------------------------
  // Whitespace collapsing

  lemma {:induction false} CollapseIsCollapsed(s: string, p: nat)
    requires p <= |s|
    ensures Collapsed(ReplaceFrom(Whitespace, s, p))
    ensures p < |s| ==> ReplaceFrom(Whitespace, s, p) != []
    ensures p < |s| && !IsSpace(s[p]) ==> ReplaceFrom(Whitespace, s, p)[0] == s[p]
    decreases |s| - p
  {
    if p < |s| {
      var rest := ReplaceFrom(Whitespace, s, p);
      if IsSpace(s[p]) {
        var e := p + CharRun(s, p, Space);
        CollapseIsCollapsed(s, e);
        var tail := ReplaceFrom(Whitespace, s, e);
        assert rest == " " + tail;
        assert tail != [] ==> !IsSpace(tail[0]);
        CollapsedConcat(" ", tail);
      } else {
        CollapseIsCollapsed(s, p + 1);
        var tail := ReplaceFrom(Whitespace, s, p + 1);
        assert rest == [s[p]] + tail;
        CollapsedConcat([s[p]], tail);
      }
    }
  }

  lemma CollapsedConcat(a: string, b: string)
    requires Collapsed(a) && Collapsed(b)
    requires a != [] && IsSpace(a[|a| - 1]) ==> b == [] || !IsSpace(b[0])
    ensures Collapsed(a + b)
  {
    var ab := a + b;
    forall i | 0 <= i < |ab| && IsSpace(ab[i])
      ensures ab[i] == ' ' && (i + 1 == |ab| || !IsSpace(ab[i + 1]))
    {
      if i < |a| {
        assert ab[i] == a[i];
        if i + 1 < |a| { assert ab[i + 1] == a[i + 1]; }
        else if i + 1 < |ab| { assert ab[i + 1] == b[0]; }
      } else {
        assert ab[i] == b[i - |a|];
        if i + 1 < |ab| { assert ab[i + 1] == b[i + 1 - |a|]; }
      }
    }
  }

  lemma CollapsedSlice(r: string, i: nat, j: nat)
    requires Collapsed(r) && i <= j <= |r|
    ensures Collapsed(r[i..j])
  {
    var t := r[i..j];
    forall k | 0 <= k < |t| && IsSpace(t[k])
      ensures t[k] == ' ' && (k + 1 == |t| || !IsSpace(t[k + 1]))
    {
      assert t[k] == r[i + k];
      if k + 1 < |t| { assert t[k + 1] == r[i + k + 1]; }
    }
  }

  lemma ReplaceAtMatch(step: Step, s: string, p: nat, m: Match)
    requires p < |s| && MatchAt(step, s, p) == Some(m)
    ensures ReplaceFrom(step, s, p) == m.replacement + ReplaceFrom(step, s, m.end)
  {
  }

  lemma SpanReplaced(step: Step, s: string, p: nat, e: nat, x: string)
    requires p < |s| && MatchAt(step, s, p) == Some(Match(e, x))
    ensures e <= |s| && ReplaceFrom(step, s, p) == x + ReplaceFrom(step, s, e)
  {
  }

  // ---------------------------------------------------------------------------
  // What individual steps do to well-formed markup

  lemma {:induction false} FindDelimFirst(s: string, i: nat, d: string, stopAtLine: bool, k: nat)
    requires d != [] && i <= k <= |s| && d <= s[k..]
    requires forall j :: i <= j < k ==> s[j] != d[0] && !(stopAtLine && IsLineTerminator(s[j]))
    ensures FindDelim(s, i, d, stopAtLine) == Some(k)
    decreases k - i
  {
    if i < k {
      assert s[i..][0] == s[i];
      FindDelimFirst(s, i + 1, d, stopAtLine, k);
    }
  }

  /** `` `x` `` becomes `x` when `x` is non-empty and holds no backtick. */
  lemma InlineCodeSpan(s: string, p: nat, x: string)
    requires p + |x| + 2 <= |s| && s[p..p + |x| + 2] == "`" + x + "`"
    requires x != [] && forall i :: 0 <= i < |x| ==> x[i] != '`'
    ensures ReplaceFrom(InlineCode, s, p) == x + ReplaceFrom(InlineCode, s, p + |x| + 2)
  {
    var e := p + |x| + 1;
    assert s[p] == s[p..p + |x| + 2][0] == '`';
    assert s[e] == s[p..p + |x| + 2][|x| + 1] == '`';
    forall j | p + 1 <= j < e ensures s[j] != '`' {
      assert s[j] == s[p..p + |x| + 2][j - p] == x[j - p - 1];
    }
    assert "`" <= s[e..];
    FindDelimFirst(s, p + 1, "`", false, e);
    forall k | 0 <= k < |x| ensures s[p + 1..e][k] == x[k] {
      assert s[p + 1 + k] == s[p..p + |x| + 2][k + 1];
    }
    assert s[p + 1..e] == x;
    assert InlineCodeAt(s, p) == Some(Match(e + 1, x));
    ReplaceAtMatch(InlineCode, s, p, Match(e + 1, x));
  }

  /** `d x d` is one match of the alternative `d(.*?)d` when `x` holds neither `d`'s first
      character nor a line terminator. */
  lemma DelimitedSpan(s: string, p: nat, d: string, x: string)
    requires d != [] && p + |d| + |x| + |d| <= |s| && s[p..p + |d| + |x| + |d|] == d + x + d
    requires forall i :: 0 <= i < |x| ==> x[i] != d[0] && !IsLineTerminator(x[i])
    ensures DelimitedAt(s, p, d) == Some(Match(p + |d| + |x| + |d|, x))
  {
    var k := p + |d| + |x|;
    PiecesOf(s, p, d, x, d);
    PrefixAt(s, p, d);
    PrefixAt(s, k, d);
    FindDelimFirst(s, p + |d|, d, true, k);
    assert FindDelim(s, p + |d|, d, true) == Some(k);
    assert s[p + |d|..k] == x;
  }

  /** The three pieces of `s[p..]` when it starts with `a + b + c`. */
  lemma PiecesOf(s: string, p: nat, a: string, b: string, c: string)
    requires p + |a| + |b| + |c| <= |s| && s[p..p + |a| + |b| + |c|] == a + b + c
    ensures s[p..p + |a|] == a
    ensures s[p + |a|..p + |a| + |b|] == b
    ensures s[p + |a| + |b|..p + |a| + |b| + |c|] == c
  {
    var w := s[p..p + |a| + |b| + |c|];
    forall k | 0 <= k < |a| ensures s[p + k] == a[k] { assert s[p + k] == w[k]; }
    forall k | 0 <= k < |b| ensures s[p + |a| + k] == b[k] { assert s[p + |a| + k] == w[|a| + k]; }
    forall k | 0 <= k < |c| ensures s[p + |a| + |b| + k] == c[k] {
      assert s[p + |a| + |b| + k] == w[|a| + |b| + k];
    }
    assert s[p..p + |a|] == a;
    assert s[p + |a|..p + |a| + |b|] == b;
    assert s[p + |a| + |b|..p + |a| + |b| + |c|] == c;
  }

  lemma PrefixAt(s: string, q: nat, d: string)
    requires q + |d| <= |s| && s[q..q + |d|] == d
    ensures d <= s[q..]
  {
  }

  /** `~~x~~` becomes `x` when `x` holds no tilde and no line terminator. */
  lemma StrikethroughSpan(s: string, p: nat, x: string)
    requires p + |x| + 4 <= |s| && s[p..p + |x| + 4] == "~~" + x + "~~"
    requires forall i :: 0 <= i < |x| ==> x[i] != '~' && !IsLineTerminator(x[i])
    ensures ReplaceFrom(Strikethrough, s, p) == x + ReplaceFrom(Strikethrough, s, p + |x| + 4)
  {
    StrikethroughMatch(s, p, x);
    SpanReplaced(Strikethrough, s, p, p + |x| + 4, x);
  }

  lemma StrikethroughMatch(s: string, p: nat, x: string)
    requires p + |x| + 4 <= |s| && s[p..p + |x| + 4] == "~~" + x + "~~"
    requires forall i :: 0 <= i < |x| ==> x[i] != '~' && !IsLineTerminator(x[i])
    ensures MatchAt(Strikethrough, s, p) == Some(Match(p + |x| + 4, x))
  {
    DelimitedSpan(s, p, "~~", x);
  }

  /** `](u)` at `j` is a link target ending after the `)` when `u` is non-empty without `)`. */
  lemma LinkTarget(s: string, j: nat, u: string)
    requires j + |u| + 3 <= |s| && s[j..j + |u| + 3] == "](" + u + ")"
    requires u != [] && forall i :: 0 <= i < |u| ==> u[i] != ')'
    ensures TargetAt(s, j) == Some(j + |u| + 3)
  {
    var w := s[j..j + |u| + 3];
    var e := j + |u| + 2;
    assert s[j] == w[0] == ']' && s[j + 1] == w[1] == '(';
    assert s[e] == w[|u| + 2] == ')';
    forall k | j + 2 <= k < e ensures s[k] != ')' { assert s[k] == w[k - j] == u[k - j - 2]; }
    assert ")" <= s[e..];
    FindDelimFirst(s, j + 2, ")", false, e);
  }

  /** `[t](u)` becomes `t` when `t` is non-empty without `]` and `u` is non-empty without `)`. */
  lemma LinkSpan(s: string, p: nat, t: string, u: string)
    requires p + |t| + |u| + 4 <= |s| && s[p..p + |t| + |u| + 4] == "[" + t + "](" + u + ")"
    requires t != [] && forall i :: 0 <= i < |t| ==> t[i] != ']'
    requires u != [] && forall i :: 0 <= i < |u| ==> u[i] != ')'
    ensures ReplaceFrom(Links, s, p) == t + ReplaceFrom(Links, s, p + |t| + |u| + 4)
  {
    var e := p + |t| + |u| + 4;
    assert ReplaceFrom(Links, s, p) == t + ReplaceFrom(Links, s, e) by {
      LinkMatch(s, p, t, u);
      SpanReplaced(Links, s, p, e, t);
    }
  }

  lemma LinkMatch(s: string, p: nat, t: string, u: string)
    requires p + |t| + |u| + 4 <= |s| && s[p..p + |t| + |u| + 4] == "[" + t + "](" + u + ")"
    requires t != [] && forall i :: 0 <= i < |t| ==> t[i] != ']'
    requires u != [] && forall i :: 0 <= i < |u| ==> u[i] != ')'
    ensures MatchAt(Links, s, p) == Some(Match(p + |t| + |u| + 4, t))
  {
    var j := p + |t| + 1;
    var e := p + |t| + |u| + 4;
    PiecesOf(s, p, "[", t, "](" + u + ")");
    assert TargetAt(s, j) == Some(e) by { LinkTarget(s, j, u); }
    assert s[p] == s[p..p + 1][0] == '[';
    assert FindDelim(s, p + 1, "]", false) == Some(j) by {
      assert s[j] == s[j..e][0] == ']';
      forall k | p + 1 <= k < j ensures s[k] != ']' { assert s[k] == s[p + 1..j][k - p - 1]; }
      assert "]" <= s[j..];
      FindDelimFirst(s, p + 1, "]", false, j);
    }
    BracketMatch(s, p, j, e, t);
  }

  /** The link step matches at an opening bracket whose closing bracket and target are found. */
  lemma BracketMatch(s: string, p: nat, j: nat, e: nat, t: string)
    requires p < |s| && s[p] == '[' && j > p + 1
    requires FindDelim(s, p + 1, "]", false) == Some(j) && TargetAt(s, j) == Some(e)
    requires j <= |s| && s[p + 1..j] == t
    ensures MatchAt(Links, s, p) == Some(Match(e, t))
  {
  }

  /** At the start of a line, one to six `#` followed by whitespace are dropped, together
      with all of that whitespace. */
  lemma HeaderMarker(s: string, p: nat, n: nat, w: nat)
    requires AtLineStart(s, p) && 1 <= n <= 6 && w >= 1 && p + n + w <= |s|
    requires forall i :: p <= i < p + n ==> s[i] == '#'
    requires forall i :: p + n <= i < p + n + w ==> IsSpace(s[i])
    requires p + n + w == |s| || !IsSpace(s[p + n + w])
    ensures ReplaceFrom(Headers, s, p) == ReplaceFrom(Headers, s, p + n + w)
  {
    RunIs(s, p, Hash, n);
    RunIs(s, p + n, Space, w);
    assert HeaderAt(s, p) == Some(Match(p + n + w, ""));
    ReplaceAtMatch(Headers, s, p, Match(p + n + w, ""));
  }

  lemma {:induction false} RunIs(s: string, i: nat, k: CharClass, n: nat)
    requires i + n <= |s|
    requires forall j :: i <= j < i + n ==> InClass(s[j], k)
    requires i + n == |s| || !InClass(s[i + n], k)
    ensures CharRun(s, i, k) == n
    decreases n
  {
    if n > 0 { RunIs(s, i + 1, k, n - 1); }
  }

  /** `**x**`, `__x__`, `*x*` and `_x_` become `x` when `x` holds no `*`, `_` or line
      terminator (and is non-empty for the one-character markers). */
  lemma EmphasisSpan(s: string, p: nat, d: string, x: string)
    requires d == "**" || d == "__" || d == "*" || d == "_"
    requires |d| == 1 ==> x != []
    requires forall i :: 0 <= i < |x| ==> x[i] != '*' && x[i] != '_' && !IsLineTerminator(x[i])
    requires p + |d| + |x| + |d| <= |s| && s[p..p + |d| + |x| + |d|] == d + x + d
    ensures ReplaceFrom(BoldItalic, s, p) == x + ReplaceFrom(BoldItalic, s, p + |d| + |x| + |d|)
  {
    var e := p + |d| + |x| + |d|;
    EmphasisMatch(s, p, d, x);
    SpanReplaced(BoldItalic, s, p, e, x);
  }

  lemma EmphasisMatch(s: string, p: nat, d: string, x: string)
    requires d == "**" || d == "__" || d == "*" || d == "_"
    requires |d| == 1 ==> x != []
    requires forall i :: 0 <= i < |x| ==> x[i] != '*' && x[i] != '_' && !IsLineTerminator(x[i])
    requires p + |d| + |x| + |d| <= |s| && s[p..p + |d| + |x| + |d|] == d + x + d
    ensures MatchAt(BoldItalic, s, p) == Some(Match(p + |d| + |x| + |d|, x))
  {
    DelimitedSpan(s, p, d, x);
    PiecesOf(s, p, d, x, d);
    assert s[p] == d[0];
    if |d| == 1 {
      assert s[p + 1] == s[p + |d|..p + |d| + |x|][0] == x[0];
      assert !("**" <= s[p..]) && !("__" <= s[p..]);
      if d == "_" { assert !("*" <= s[p..]); }
    } else if d == "__" {
      assert !("**" <= s[p..]);
    }
  }
}
