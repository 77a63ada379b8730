/**
 * src/utils/sanitiseInput.ts: the single-pass input filter. The two regular
 * expressions of the source become scanners over `string`:
 *   /<script[^>]*>[\s\S]*?<\/script>/gi   ScriptBlockLen, StripScripts, HasScriptBlock
 *   /<\/?[^>]+(>|$)/g                     TagLen, StripTags, HasTag
 * A global `replace` removes the leftmost match, resumes after it and keeps the
 * character at every position where no match starts; `test` (on a fresh literal,
 * so from index 0) asks whether a match starts anywhere.
 */
module Sanitiser {
  import opened Wrappers
  import opened Text
  import Config

  /** The issues the filter can record; `Message` gives the text the source pushes. */
  datatype Issue = EmptyInput | ScriptTags | HtmlTags | Whitespace | TooLong(length: nat)

  datatype SanitisationResult = SanitisationResult(
    isSafe: bool,
    originalInput: string,
    sanitisedInput: string,
    issues: seq<Issue>)

  function Message(issue: Issue): string {
    match issue
    case EmptyInput => "Input cannot be empty"
    case ScriptTags => "Script tags detected and must be removed."
    case HtmlTags => "HTML tags detected and must be removed."
    case Whitespace => "Leading or trailing whitespace trimmed."
    case TooLong(n) =>
      "Input too long (" + NatToString(n) + " chars) and truncated to " + NatToString(Config.InputMaxLength) + " characters."
  }

  /** `issues.map(Message).join("\n")`, the text validators put under a field's key. */
  function IssueText(issues: seq<Issue>): string {
    JoinLines(Messages(issues))
  }

  function Messages(issues: seq<Issue>): (r: seq<string>)
    ensures |r| == |issues|
    ensures forall i :: 0 <= i < |issues| ==> r[i] == Message(issues[i])
  {
    if issues == [] then [] else [Message(issues[0])] + Messages(issues[1..])
  }

  /** What `originalInput` shows once a script or HTML tag was stripped. */
  const Placeholder: string := "[CONTENT SANITISED]"

  /** The stage (0 script, 1 HTML, 2 trim, 3 length) an issue of a non-empty input belongs to. */
  function Stage(issue: Issue): nat {
    match issue
    case ScriptTags => 0
    case HtmlTags => 1
    case Whitespace => 2
    case _ => 3
  }

  const ScriptOpen: string := "<script"
  const ScriptClose: string := "</script>"

  /** `s` begins with `p`, comparing ASCII letters without regard to case (the `i` flag). */
  predicate StartsWithIgnoringAsciiCase(s: string, p: string) {
    |p| <= |s| && forall i :: 0 <= i < |p| ==> AsciiLower(s[i]) == AsciiLower(p[i])
  }

  /** The first index at or after `from` holding '>', or |s| if there is none. */
  function IndexOfGt(s: string, from: nat): (k: nat)
    requires from <= |s|
    ensures from <= k <= |s|
    ensures k < |s| ==> s[k] == '>'
    ensures forall j :: from <= j < k ==> s[j] != '>'
    decreases |s| - from
  {
    if from == |s| || s[from] == '>' then from else IndexOfGt(s, from + 1)
  }

  /** The first index at or after `from` where `</script>` (any case) begins. */
  function FindScriptClose(s: string, from: nat): (r: Option<nat>)
    requires from <= |s|
    ensures r.Some? ==> from <= r.value && r.value + |ScriptClose| <= |s|
    ensures r.Some? ==> StartsWithIgnoringAsciiCase(s[r.value..], ScriptClose)
    ensures forall j :: from <= j <= |s| && (r.Some? ==> j < r.value) ==> !StartsWithIgnoringAsciiCase(s[j..], ScriptClose)
    decreases |s| - from
  {
    if from == |s| then None
    else if StartsWithIgnoringAsciiCase(s[from..], ScriptClose) then Some(from)
    else FindScriptClose(s, from + 1)
  }

  /** The length of the match of /<script[^>]*>[\s\S]*?<\/script>/i that starts at s[0], if any.
      `[^>]*` cannot contain '>', so the only way on is the first '>' after "<script";
      the lazy `[\s\S]*?` stops at the first "</script>" after it. */
  function ScriptBlockLen(s: string): (r: Option<nat>)
    ensures r.Some? ==> |ScriptOpen| + 1 + |ScriptClose| <= r.value <= |s|
    // a match needs "<script", a later '>', and a "</script>" after the first such '>'
    ensures r.Some? <==>
      && StartsWithIgnoringAsciiCase(s, ScriptOpen)
      && IndexOfGt(s, |ScriptOpen|) < |s|
      && exists j :: IndexOfGt(s, |ScriptOpen|) < j <= |s| && StartsWithIgnoringAsciiCase(s[j..], ScriptClose)
    // the match ends with the first "</script>" that starts after that '>'
    ensures r.Some? ==>
      var close := r.value - |ScriptClose|;
      && IndexOfGt(s, |ScriptOpen|) < close
      && StartsWithIgnoringAsciiCase(s[close..], ScriptClose)
      && forall j :: IndexOfGt(s, |ScriptOpen|) < j < close ==> !StartsWithIgnoringAsciiCase(s[j..], ScriptClose)
  {
    if !StartsWithIgnoringAsciiCase(s, ScriptOpen) then None
    else
      var g := IndexOfGt(s, |ScriptOpen|);
      if g == |s| then None
      else match FindScriptClose(s, g + 1)
        case None => None
        case Some(k) => Some(k + |ScriptClose|)
  }

  /** `/<script[^>]*>[\s\S]*?<\/script>/gi.test(s)`: a match starts at some position. */
  predicate HasScriptBlock(s: string)
    decreases |s|
  {
    s != [] && (ScriptBlockLen(s).Some? || HasScriptBlock(s[1..]))
  }

  /** `s.replace(/<script[^>]*>[\s\S]*?<\/script>/gi, "")`: it removes something exactly when
      a script block is present. */
  function StripScripts(s: string): (r: string)
    ensures |r| <= |s|
    ensures r == s <==> !HasScriptBlock(s)
    decreases |s|
  {
    if s == [] then []
    else match ScriptBlockLen(s)
      case Some(n) => StripScripts(s[n..])
      case None =>
        var rest := StripScripts(s[1..]);
        assert [s[0]] + s[1..] == s;
        [s[0]] + rest
  }

  /** The length of the match of /<\/?[^>]+(>|$)/ that starts at s[0], if any. A match needs
      '<' followed by some character other than '>': with `\/?` taking a '/', `[^>]+` either
      finds a character or backtracks to take the '/' itself, and in both cases the greedy
      run ends at the first '>' (consumed) or at the end of the input. */
  function TagLen(s: string): (r: Option<nat>)
    ensures r.Some? <==> |s| >= 2 && s[0] == '<' && s[1] != '>'
    ensures r.Some? ==> 2 <= r.value <= |s|
    // the match runs to the first '>' after the '<' (included), or to the end of the text
    ensures r.Some? ==> forall j :: 1 <= j < r.value - 1 ==> s[j] != '>'
    ensures r.Some? ==> r.value == |s| || s[r.value - 1] == '>'
  {
    if |s| >= 2 && s[0] == '<' && s[1] != '>' then
      var k := IndexOfGt(s, 1);
      Some(if k < |s| then k + 1 else |s|)
    else None
  }

  /** `/<\/?[^>]+(>|$)/g.test(s)`: a match starts at some position. */
  predicate HasTag(s: string)
    decreases |s|
  {
    s != [] && (TagLen(s).Some? || HasTag(s[1..]))
  }

  /** No tag can start anywhere: every '<' is the last character or is followed by '>'. */
  predicate TagFree(s: string) {
    forall i :: 0 <= i < |s| - 1 && s[i] == '<' ==> s[i + 1] == '>'
  }

  /** The regex test and the positional description of a tag agree. */
  lemma {:induction false} HasTagIffNotTagFree(s: string)
    ensures HasTag(s) <==> !TagFree(s)
    decreases |s|
  {
    if s != [] {
      HasTagIffNotTagFree(s[1..]);
      assert TagFree(s) <==> (TagLen(s).None? && TagFree(s[1..])) by {
        if TagFree(s) {
          TagFreeSlice(s, 1, |s|);
        }
        if TagLen(s).None? && TagFree(s[1..]) {
          forall i | 0 <= i < |s| - 1 && s[i] == '<' ensures s[i + 1] == '>' {
            if i > 0 {
              assert s[1..][i - 1] == s[i] && s[1..][i] == s[i + 1];
            }
          }
        }
      }
    }
  }

  /** `s.replace(/<\/?[^>]+(>|$)/g, "")`: the result has no tag left in it, and it differs
      from `s` exactly when a tag was present. */
  function StripTags(s: string): (r: string)
    ensures |r| <= |s|
    ensures TagFree(r)
    ensures r == s <==> !HasTag(s)
    ensures r != [] && s[0] != '<' ==> r[0] == s[0]
    decreases |s|
  {
    if s == [] then []
    else match TagLen(s)
      case Some(n) => StripTags(s[n..])
      case None =>
        var rest := StripTags(s[1..]);
        assert [s[0]] + s[1..] == s;
        var r := [s[0]] + rest;
        assert TagFree(r) by {
          if s[0] == '<' && |r| > 1 {
            assert |s| >= 2 && s[1] == '>';
            assert rest[0] == s[1..][0];
          }
        }
        r
  }

  /** Every script block begins with a tag. */
  lemma {:induction false} ScriptBlockStartsTag(t: string)
    requires StartsWithIgnoringAsciiCase(t, ScriptOpen)
    ensures TagLen(t).Some?
  {
    assert AsciiLower(t[0]) == AsciiLower(ScriptOpen[0]) && AsciiLower(t[1]) == AsciiLower(ScriptOpen[1]);
  }

  /** Wherever a script block matches, a tag matches too. */
  lemma {:induction false} ScriptImpliesTag(s: string)
    requires HasScriptBlock(s)
    ensures HasTag(s)
    decreases |s|
  {
    if ScriptBlockLen(s).Some? {
      ScriptBlockStartsTag(s);
    } else {
      ScriptImpliesTag(s[1..]);
    }
  }

  /** A string free of tags holds no script block either. */
  lemma {:induction false} TagFreeHasNoScript(s: string)
    requires TagFree(s)
    ensures !HasScriptBlock(s)
  {
    HasTagIffNotTagFree(s);
    if HasScriptBlock(s) {
      ScriptImpliesTag(s);
    }
  }

  lemma {:induction false} TagFreeSlice(s: string, a: nat, b: nat)
    requires TagFree(s) && a <= b <= |s|
    ensures TagFree(s[a..b])
  {
    var t := s[a..b];
    forall i | 0 <= i < |t| - 1 && t[i] == '<' ensures t[i + 1] == '>' {
      assert t[i] == s[a + i] && t[i + 1] == s[a + i + 1];
    }
  }

  /** The text after the script stage. */
  function AfterScripts(raw: string): string {
    if HasScriptBlock(raw) then StripScripts(raw) else raw
  }

  /** The text after the script and HTML stages. */
  function AfterTags(raw: string): string {
    var s1 := AfterScripts(raw);
    if HasTag(s1) then StripTags(s1) else s1
  }

  /** The text after the script, HTML and trim stages, before truncation. */
  function Cleaned(raw: string): string {
    Trim(AfterTags(raw))
  }

  lemma {:induction false} CleanedIsTrimmed(raw: string)
    ensures Trim(Cleaned(raw)) == Cleaned(raw)
  {
    TrimIdempotent(AfterTags(raw));
  }

  /** The issue list of a non-empty input, from which stages fired; `tooLong` carries the
      length quoted in the message. */
  function StageIssues(script: bool, html: bool, trimmed: bool, tooLong: Option<nat>): (r: seq<Issue>)
    ensures |r| <= 4
    ensures r == [] <==> !script && !html && !trimmed && tooLong.None?
    ensures forall i, j :: 0 <= i < j < |r| ==> Stage(r[i]) < Stage(r[j])
  {
    var front := IssuesBeforeLength(script, html, trimmed);
    if tooLong.None? then front
    else
      AppendLaterStage(front, TooLong(tooLong.value));
      front + [TooLong(tooLong.value)]
  }

  /** Appending an issue of a later stage than all before it keeps the list in stage order. */
  lemma {:induction false} AppendLaterStage(front: seq<Issue>, last: Issue)
    requires forall i, j :: 0 <= i < j < |front| ==> Stage(front[i]) < Stage(front[j])
    requires forall i :: 0 <= i < |front| ==> Stage(front[i]) < Stage(last)
    ensures var r := front + [last];
      forall i, j :: 0 <= i < j < |r| ==> Stage(r[i]) < Stage(r[j])
  {
    var r := front + [last];
    forall i, j | 0 <= i < j < |r|
      ensures Stage(r[i]) < Stage(r[j])
    {
      assert r[i] == front[i];
      if j < |front| {
        assert r[j] == front[j];
      }
    }
  }

  /** Each stage's issue is present exactly when that stage fired. */
  lemma {:induction false} StageIssuesRecordStages(script: bool, html: bool, trimmed: bool, tooLong: Option<nat>)
    ensures var r := StageIssues(script, html, trimmed, tooLong);
      && (ScriptTags in r <==> script)
      && (HtmlTags in r <==> html)
      && (Whitespace in r <==> trimmed)
      && EmptyInput !in r
      && (tooLong.Some? ==> TooLong(tooLong.value) in r)
      && (tooLong.None? ==> forall n :: TooLong(n) !in r)
  {
    var front := IssuesBeforeLength(script, html, trimmed);
    var r := StageIssues(script, html, trimmed, tooLong);
    assert r == front + (if tooLong.Some? then [TooLong(tooLong.value)] else []);
  }

  function IssuesBeforeLength(script: bool, html: bool, trimmed: bool): (r: seq<Issue>)
    ensures |r| <= 3
    ensures r == [] <==> !script && !html && !trimmed
    ensures ScriptTags in r <==> script
    ensures HtmlTags in r <==> html
    ensures Whitespace in r <==> trimmed
    ensures forall i :: 0 <= i < |r| ==> Stage(r[i]) < 3
    ensures forall i, j :: 0 <= i < j < |r| ==> Stage(r[i]) < Stage(r[j])
  {
    (if script then [ScriptTags] else [])
    + (if html then [HtmlTags] else [])
    + (if trimmed then [Whitespace] else [])
  }

  /** The result for a non-empty input, from what the stages did: whether a script block
      and a tag were found, the text after the tag stage and the text after trimming. */
  function Assemble(raw: string, script: bool, html: bool, stripped: string, cleaned: string): (r: SanitisationResult)
    ensures |r.sanitisedInput| <= Config.InputMaxLength
    ensures r.isSafe <==> r.issues == []
    ensures r.issues == StageIssues(script, html, cleaned != stripped,
                                    if |cleaned| > Config.InputMaxLength then Some(|cleaned|) else None)
    ensures r.originalInput == if script || html then Placeholder else raw
    ensures r.sanitisedInput == if |cleaned| > Config.InputMaxLength then cleaned[..Config.InputMaxLength] else cleaned
  {
    var long := |cleaned| > Config.InputMaxLength;
    var issues := StageIssues(script, html, cleaned != stripped, if long then Some(|cleaned|) else None);
    SanitisationResult(issues == [], if script || html then Placeholder else raw,
                       if long then cleaned[..Config.InputMaxLength] else cleaned, issues)
  }

  /** sanitiseInput: empty input is refused outright with one issue; otherwise the result
      is at most 50 characters long, and it is safe exactly when no stage recorded an issue,
      in which case nothing was changed. */
  function Sanitise(raw: string): (r: SanitisationResult)
    ensures Trim(raw) == [] ==> r == SanitisationResult(false, raw, [], [EmptyInput])
    ensures |r.sanitisedInput| <= Config.InputMaxLength
    ensures r.isSafe <==> r.issues == []
    ensures r.isSafe ==> r.sanitisedInput == raw && r.originalInput == raw
    ensures r.sanitisedInput == [] ==> !r.isSafe
  {
    if Trim(raw) == [] then SanitisationResult(false, raw, [], [EmptyInput])
    else Assemble(raw, HasScriptBlock(raw), HasTag(AfterScripts(raw)), AfterTags(raw), Cleaned(raw))
  }

  /** For a non-empty input, each issue names the stage that changed the text, in stage
      order, and `originalInput` is masked exactly when a script or HTML tag was stripped. */
  lemma {:induction false} SanitiseReportsStages(raw: string)
    requires Trim(raw) != []
    ensures var r := Sanitise(raw);
      && (forall i, j :: 0 <= i < j < |r.issues| ==> Stage(r.issues[i]) < Stage(r.issues[j]))
      && (ScriptTags in r.issues <==> HasScriptBlock(raw))
      && (HtmlTags in r.issues <==> HasTag(AfterScripts(raw)))
      && r.originalInput == (if ScriptTags in r.issues || HtmlTags in r.issues then Placeholder else raw)
  {
    var script, html := HasScriptBlock(raw), HasTag(AfterScripts(raw));
    var s3 := Cleaned(raw);
    var tooLong := if |s3| > Config.InputMaxLength then Some(|s3|) else None;
    var r := Assemble(raw, script, html, AfterTags(raw), s3);
    assert Sanitise(raw) == r;
    StageIssuesRecordStages(script, html, s3 != AfterTags(raw), tooLong);
  }

  /** Every result carries at most one issue per stage, so at most four. */
  lemma {:induction false} SanitiseIssueCount(raw: string)
    ensures var r := Sanitise(raw); !r.isSafe ==> 1 <= |r.issues| <= 4
    ensures var r := Sanitise(raw); r.isSafe ==> r.issues == []
  {
  }

  /** Text longer than 50 characters after the earlier stages is cut to its first 50, with an
      issue quoting the length it had; shorter text is kept whole. */
  lemma {:induction false} SanitiseTruncates(raw: string)
    requires Trim(raw) != []
    ensures var c := Cleaned(raw);
      && (|c| > Config.InputMaxLength ==>
            Sanitise(raw).sanitisedInput == c[..Config.InputMaxLength] && TooLong(|c|) in Sanitise(raw).issues)
      && (|c| <= Config.InputMaxLength ==> Sanitise(raw).sanitisedInput == c)
  {
    var c := Cleaned(raw);
    StageIssuesRecordStages(HasScriptBlock(raw), HasTag(AfterScripts(raw)), c != AfterTags(raw),
      if |c| > Config.InputMaxLength then Some(|c|) else None);
  }

  /** No tag and no script block survives sanitisation. */
  lemma {:induction false} SanitisedIsTagFree(raw: string)
    ensures TagFree(Sanitise(raw).sanitisedInput)
    ensures !HasScriptBlock(Sanitise(raw).sanitisedInput)
  {
    var o := Sanitise(raw).sanitisedInput;
    if Trim(raw) != [] {
      var s1 := AfterScripts(raw);
      var s2 := AfterTags(raw);
      HasTagIffNotTagFree(s1);
      assert TagFree(s2);
      var s3 := Trim(s2);
      var a, b := TrimSlice(s2);
      TagFreeSlice(s2, a, b);
      if |s3| > Config.InputMaxLength {
        TagFreeSlice(s3, 0, Config.InputMaxLength);
      }
    }
    TagFreeHasNoScript(o);
  }

  /** On tag-free text of at most 50 characters, only the trim stage can act. */
  lemma {:induction false} SanitiseOnTagFree(x: string)
    requires TagFree(x) && |x| <= Config.InputMaxLength
    ensures Sanitise(x).sanitisedInput == Trim(x)
    ensures Sanitise(x).isSafe <==> x != [] && Trim(x) == x
  {
    TagFreeHasNoScript(x);
    HasTagIffNotTagFree(x);
    if Trim(x) == [] {
      assert Sanitise(x).sanitisedInput == [];
    } else {
      assert Sanitise(x).issues == StageIssues(false, false, Trim(x) != x, None);
    }
  }

  /** Sanitising a sanitised text only trims it again (a cut at 50 characters may leave
      whitespace at its end); when no cut happened it is a fixed point, safe unless empty. */
  lemma {:induction false} SanitiseProjection(raw: string)
    ensures var o := Sanitise(raw).sanitisedInput;
      Sanitise(o).sanitisedInput == Trim(o)
    ensures var o := Sanitise(raw).sanitisedInput;
      Trim(raw) != [] && |Cleaned(raw)| <= Config.InputMaxLength ==>
        Sanitise(o).sanitisedInput == o && (Sanitise(o).isSafe <==> o != [])
  {
    var o := Sanitise(raw).sanitisedInput;
    SanitisedIsTagFree(raw);
    SanitiseOnTagFree(o);
    if Trim(raw) != [] && |Cleaned(raw)| <= Config.InputMaxLength {
      SanitiseTruncates(raw);
      CleanedIsTrimmed(raw);
    }
  }

  /** A safe result is a fixed point: re-sanitising its output gives the same result. */
  lemma {:induction false} SafeIsFixedPoint(raw: string)
    requires Sanitise(raw).isSafe
    ensures Sanitise(Sanitise(raw).sanitisedInput) == Sanitise(raw)
  {
  }

  /** sanitiseInput as the source writes it: locals reassigned stage by stage and an issue
      list pushed to. */
  method SanitiseInput(raw: string) returns (r: SanitisationResult)
    ensures r == Sanitise(raw)
  {
    if Trim(raw) == [] {
      return SanitisationResult(false, raw, [], [EmptyInput]);
    }
    var issues: seq<Issue> := [];
    var hasMaliciousContent := false;
    var sanitised := raw;
    var script := HasScriptBlock(sanitised);
    if script {
      issues := issues + [ScriptTags];
      sanitised := StripScripts(sanitised);
      hasMaliciousContent := true;
    }
    assert sanitised == AfterScripts(raw);
    var html := HasTag(sanitised);
    if html {
      issues := issues + [HtmlTags];
      sanitised := StripTags(sanitised);
      hasMaliciousContent := true;
    }
    assert sanitised == AfterTags(raw);
    assert issues == (if script then [ScriptTags] else []) + (if html then [HtmlTags] else []);
    var beforeTrim := sanitised;
    sanitised := Trim(sanitised);
    var trimmed := beforeTrim != sanitised;
    if trimmed {
      issues := issues + [Whitespace];
    }
    assert sanitised == Cleaned(raw);
    assert issues == IssuesBeforeLength(script, html, trimmed);
    var tooLong: Option<nat> := None;
    if |sanitised| > Config.InputMaxLength {
      tooLong := Some(|sanitised|);
      issues := issues + [TooLong(|sanitised|)];
      sanitised := sanitised[..Config.InputMaxLength];
    }
    assert issues == StageIssues(script, html, trimmed, tooLong);
    r := SanitisationResult(|issues| == 0, if hasMaliciousContent then Placeholder else raw, sanitised, issues);
  }
}
