/**
  The competitor name taken from the generated text: `generatedText?.trim().match(/Le nom est : (.+)/)`,
  then `match[1].trim()`. The regular expression has no flags, so `.` matches any character but a
  line terminator, and the match is the leftmost one.
 */
module NameExtraction {
  import opened Wrappers
  import opened JsSemantics

  const Marker: string := "Le nom est : "

  /** The literal part of the pattern occurs at position `p` of `s`. */
  predicate MarkerAt(s: string, p: int) {
    0 <= p && p + |Marker| <= |s| && s[p..p + |Marker|] == Marker
  }

  /** The whole pattern matches at `p`: the marker, then at least one character that is not a line terminator. */
  predicate MatchesAt(s: string, p: int) {
    MarkerAt(s, p) && p + |Marker| < |s| && !IsLineTerminator(s[p + |Marker|])
  }

  predicate HasNoLineTerminator(s: string) {
    forall i :: 0 <= i < |s| ==> !IsLineTerminator(s[i])
  }

  /** What greedy `.+` (or `.*`) consumes of `t`: the longest prefix free of line terminators. */
  function LineRun(t: string): (r: string)
    ensures |r| <= |t| && r == t[..|r|]
    ensures HasNoLineTerminator(r)
    ensures |r| < |t| ==> IsLineTerminator(t[|r|])
    decreases |t|
  {
    if t == [] || IsLineTerminator(t[0]) then [] else [t[0]] + LineRun(t[1..])
  }

  /** The position of the leftmost match at or after `from`, as the regular-expression search finds it. */
  function FindMatch(s: string, from: nat): (p: Option<nat>)
    ensures p.Some? ==> from <= p.value && MatchesAt(s, p.value)
                        && forall q :: from <= q < p.value ==> !MatchesAt(s, q)
    ensures p.None? ==> forall q :: from <= q ==> !MatchesAt(s, q)
    decreases |s| - from
  {
    if from + |Marker| >= |s| then None
    else if MatchesAt(s, from) then Some(from)
    else FindMatch(s, from + 1)
  }

  /** `match[1]` of `s.match(/Le nom est : (.+)/)`, or `None` when there is no match. */
  function Capture(s: string): (c: Option<string>)
    ensures c.Some? ==> c.value != "" && HasNoLineTerminator(c.value)
  {
    match FindMatch(s, 0)
    case None => None
    case Some(p) => Some(LineRun(s[p + |Marker|..]))
  }

  /**
    `competitorName`: `None` when generation failed (no text) or the trimmed text has no match;
    otherwise the capture, trimmed. It may be the empty string when the captured rest of the line
    is only white space.
   */
  function CompetitorName(generatedText: Option<string>): (name: Option<string>)
    ensures name.Some? ==> generatedText.Some? && Capture(Trim(generatedText.value)).Some?
    ensures name.Some? ==> HasNoLineTerminator(name.value) && IsTrimmed(name.value)
    ensures generatedText.Some? && Capture(Trim(generatedText.value)).Some? ==> name.Some?
  {
    match generatedText
    case None => None
    case Some(text) =>
      match Capture(Trim(text))
      case None => None
      case Some(c) => Some(Trim(c))
  }

  /**
    The capture is the rest of the line after the leftmost marker that is followed by a
    character other than a line terminator; there is none exactly when no position matches.
   */
  lemma CaptureIsLeftmostLine(s: string)
    ensures Capture(s).None? <==> forall q :: 0 <= q < |s| ==> !MatchesAt(s, q)
    ensures Capture(s).Some? ==>
      exists p :: MatchesAt(s, p) && (forall q :: 0 <= q < p ==> !MatchesAt(s, q))
               && Capture(s).value == LineRun(s[p + |Marker|..])
  {
    match FindMatch(s, 0)
    case None =>
    case Some(p) => assert MatchesAt(s, p);
  }

  lemma {:induction false} LineRunOfLine(n: string, rest: string)
    requires HasNoLineTerminator(n)
    requires rest == [] || IsLineTerminator(rest[0])
    ensures LineRun(n + rest) == n
    decreases |n|
  {
    if n == [] {
      assert n + rest == rest;
    } else {
      assert (n + rest)[1..] == n[1..] + rest;
      LineRunOfLine(n[1..], rest);
      assert [n[0]] + n[1..] == n;
    }
  }

  /**
    A reply that is exactly `Le nom est : <name>` gives back `<name>`, for any name that is not
    empty, holds no line terminator and has no white space at either end.
   */
  lemma ReplyRoundTrip(name: string)
    requires name != "" && HasNoLineTerminator(name) && IsTrimmed(name)
    ensures CompetitorName(Some(Marker + name)) == Some(name)
  {
    var s := Marker + name;
    assert !IsStrippable(s[0]) && s[|s| - 1] == name[|name| - 1];
    assert Trim(s) == s;
    assert s[..|Marker|] == Marker;
    assert MatchesAt(s, 0);
    assert s[|Marker|..] == name;
    LineRunOfLine(name, []);
    assert name + [] == name;
  }

  /** The name read from a trimmed reply whose leftmost match is at `p`, the line there being `line`. */
  lemma NameOfLeftmostMatch(s: string, p: nat, line: string, rest: string)
    requires IsTrimmed(s)
    requires MatchesAt(s, p) && forall q :: 0 <= q < p ==> !MatchesAt(s, q)
    requires s[p + |Marker|..] == line + rest
    requires HasNoLineTerminator(line) && (rest == [] || IsLineTerminator(rest[0]))
    ensures CompetitorName(Some(s)) == Some(Trim(line))
  {
    assert FindMatch(s, 0) == Some(p);
    LineRunOfLine(line, rest);
  }

  /** Text in which no position matches has no capture. */
  lemma NoCaptureWithoutMatch(s: string)
    requires forall q :: 0 <= q < |s| ==> !MatchesAt(s, q)
    ensures Capture(s) == None
  {
  }

  /**
    Only the first line after a leading marker is taken: whatever follows the line break, other
    markers included, is ignored.
   */
  lemma FirstLineWins(name: string, rest: string)
    requires name != "" && HasNoLineTerminator(name) && IsTrimmed(name)
    requires rest != [] && !IsStrippable(rest[|rest| - 1])
    ensures CompetitorName(Some(Marker + name + "\n" + rest)) == Some(name)
  {
    var s := Marker + name + "\n" + rest;
    assert s[..|Marker|] == Marker;
    assert s[|Marker|..] == name + ("\n" + rest);
    NameOfLeftmostMatch(s, 0, name, "\n" + rest);
  }

  /** A marker directly followed by a line break does not match; the search goes on to the next one. */
  lemma MarkerAtLineEndSkipped(name: string)
    requires name != "" && HasNoLineTerminator(name) && IsTrimmed(name)
    ensures CompetitorName(Some(Marker + "\n" + Marker + name)) == Some(name)
  {
    var s := Marker + "\n" + Marker + name;
    var p := |Marker| + 1;
    assert s[p..p + |Marker|] == Marker;
    assert 'L' !in Marker[1..];
    forall q | 0 <= q < p ensures !MatchesAt(s, q) {
      if q == 0 {
        assert s[|Marker|] == '\n';
      } else if q + |Marker| <= |s| {
        assert s[q..q + |Marker|][0] == s[q];
        if q < |Marker| {
          assert s[q] == Marker[q] && Marker[q] == Marker[1..][q - 1];
        } else {
          assert s[q] == '\n';
        }
      }
    }
    assert s[p + |Marker|..] == name + [];
    NameOfLeftmostMatch(s, p, name, []);
  }

  /** A captured rest of line made only of white space trims to the empty name (which is then not patched). */
  lemma BlankCaptureGivesEmptyName(blank: string, rest: string)
    requires blank != [] && forall i :: 0 <= i < |blank| ==> IsWhiteSpace(blank[i])
    requires rest != [] && !IsStrippable(rest[|rest| - 1])
    ensures CompetitorName(Some(Marker + blank + "\n" + rest)) == Some("")
  {
    var s := Marker + blank + "\n" + rest;
    assert s[..|Marker|] == Marker;
    assert s[|Marker|..] == blank + ("\n" + rest);
    NameOfLeftmostMatch(s, 0, blank, "\n" + rest);
    assert Trim(blank) == [];
  }

  /** A reply with no colon never yields a name. */
  lemma NoColonNoName(reply: string)
    requires ':' !in reply
    ensures CompetitorName(Some(reply)) == None
  {
    var s := Trim(reply);
    var a := |reply| - |TrimStart(reply)|;
    forall q | 0 <= q < |s| ensures !MatchesAt(s, q) {
      if q + |Marker| <= |s| {
        assert s[q..q + |Marker|][11] == s[q + 11] == reply[a + q + 11];
        assert reply[a + q + 11] in reply;
      }
    }
    NoCaptureWithoutMatch(s);
  }

  /** A reply in the format the prompt asks for, `Le nom est: '…'` with no space before the colon, is never matched. */
  lemma PromptFormatIsMissed(name: string)
    requires ':' !in name
    ensures CompetitorName(Some("Le nom est: '" + name + "'")) == None
  {
    var s := "Le nom est: '" + name + "'";
    assert IsTrimmed(s);
    forall q | 0 <= q < |s| ensures !MatchesAt(s, q) {
      if q + |Marker| <= |s| {
        var j := q + 11;
        assert s[q..q + |Marker|][11] == s[j];
        if j < 13 {
          assert s[j] == "Le nom est: '"[j];
        } else if j < 13 + |name| {
          assert s[j] == name[j - 13] && name[j - 13] in name;
        }
      }
    }
    NoCaptureWithoutMatch(s);
  }

  /** A refusal such as "I cannot determine a name" gives no name. */
  lemma RefusalGivesNoName(reply: string)
    requires reply == "I cannot determine a name"
    ensures CompetitorName(Some(reply)) == None
  {
    NoColonNoName(reply);
  }
}
