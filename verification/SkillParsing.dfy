/**
  The request payload the frontend builds (frontend/src/App.jsx, line 11):
  `{ id, skills: skills.split(",").map(s => s.trim()).filter(Boolean) }`.
 */
module SkillParsing {

  /**
    The characters JavaScript's `String.prototype.trim` removes: WhiteSpace
    (tab, vertical tab, form feed, space, no-break space, byte order mark and
    the other space separators) and LineTerminator (LF, CR, LS, PS).
   */
  predicate IsJsWhitespace(c: char) {
    var n := c as int;
    n == 0x09 || n == 0x0A || n == 0x0B || n == 0x0C || n == 0x0D || n == 0x20 ||
    n == 0xA0 || n == 0x1680 || (0x2000 <= n <= 0x200A) || n == 0x2028 || n == 0x2029 ||
    n == 0x202F || n == 0x205F || n == 0x3000 || n == 0xFEFF
  }

  /** `s.split(sep)` for a one-character separator: the pieces between separators, empty ones included. */
  function Split(s: string, sep: char): (r: seq<string>)
    ensures |r| >= 1
    ensures forall k :: 0 <= k < |r| ==> sep !in r[k]
  {
    if s == [] then [""]
    else
      var rest := Split(s[1..], sep);
      if s[0] == sep then [""] + rest
      else [[s[0]] + rest[0]] + rest[1..]
  }

  /** `pieces.join(sep)`. */
  function Join(pieces: seq<string>, sep: char): (text: string) {
    if pieces == [] then ""
    else if |pieces| == 1 then pieces[0]
    else pieces[0] + [sep] + Join(pieces[1..], sep)
  }

  function TrimStart(s: string): (r: string)
    ensures |r| <= |s|
    ensures r != [] ==> !IsJsWhitespace(r[0])
    ensures r == s[|s| - |r|..]
    ensures forall k :: 0 <= k < |s| - |r| ==> IsJsWhitespace(s[k])
  {
    if s != [] && IsJsWhitespace(s[0]) then TrimStart(s[1..]) else s
  }

  function TrimEnd(s: string): (r: string)
    ensures |r| <= |s|
    ensures r != [] ==> !IsJsWhitespace(r[|r| - 1])
    ensures r == s[..|r|]
    ensures forall k :: |r| <= k < |s| ==> IsJsWhitespace(s[k])
  {
    if s != [] && IsJsWhitespace(s[|s| - 1]) then TrimEnd(s[..|s| - 1]) else s
  }

  /** `s.trim()`. */
  function Trim(s: string): (r: string)
    ensures |r| <= |s|
    ensures r != [] ==> !IsJsWhitespace(r[0]) && !IsJsWhitespace(r[|r| - 1])
    ensures forall c :: c in r ==> c in s
  {
    var t := TrimStart(s);
    var r := TrimEnd(t);
    assert forall c :: c in r ==> c in t;
    assert forall c :: c in t ==> c in s;
    if r != [] then
      assert r[|r| - 1] == t[|r| - 1];
      assert r[0] == t[0];
      r
    else r
  }

  /**
    What `trim` removes: `Trim(s)` is the slice of `s` left after cutting a
    prefix and a suffix made only of whitespace.
   */
  lemma TrimSlice(s: string)
    ensures exists a, b :: BlankOutside(s, a, b) && Trim(s) == s[a..b]
  {
    var t := TrimStart(s);
    var r := TrimEnd(t);
    assert Trim(s) == r;
    var a := |s| - |t|;
    var b := a + |r|;
    assert t == s[a..];
    assert r == t[..|r|];
    assert r == s[a..b] by {
      forall k | 0 <= k < |r| ensures r[k] == s[a + k] {
        assert r[k] == t[k];
      }
    }
    assert forall k :: 0 <= k < a ==> IsJsWhitespace(s[k]);
    assert forall k :: b <= k < |s| ==> IsJsWhitespace(s[k]) by {
      forall k | b <= k < |s| ensures IsJsWhitespace(s[k]) {
        assert s[k] == t[k - a];
      }
    }
    assert BlankOutside(s, a, b);
  }

  /** `0 <= a <= b <= |s|`, and `s` holds only whitespace before `a` and from `b` on. */
  predicate BlankOutside(s: string, a: int, b: int) {
    && 0 <= a <= b <= |s|
    && (forall k :: 0 <= k < a ==> IsJsWhitespace(s[k]))
    && (forall k :: b <= k < |s| ==> IsJsWhitespace(s[k]))
  }

  /** `.map(s => s.trim()).filter(Boolean)`: trimmed pieces, the empty ones dropped. */
  function TrimAndDropEmpty(pieces: seq<string>): (r: seq<string>)
    ensures |r| <= |pieces|
  {
    if pieces == [] then []
    else Kept(pieces[0]) + TrimAndDropEmpty(pieces[1..])
  }

  /** What one piece contributes: its trimmed form, or nothing when that is empty. */
  function Kept(piece: string): (r: seq<string>)
    ensures |r| <= 1
  {
    var t := Trim(piece);
    if t == "" then [] else [t]
  }

  /** The `skills` field of the payload. */
  function ParseSkills(text: string): (skills: seq<string>) {
    TrimAndDropEmpty(Split(text, ','))
  }

  /** The payload: `id` is sent as typed. */
  datatype Payload = Payload(id: string, skills: seq<string>)

  /** `{ id, skills: ... }`: the id as typed and the parsed skills. */
  function BuildPayload(id: string, skillsText: string): (p: Payload) {
    Payload(id, ParseSkills(skillsText))
  }

  /** A piece already in its final form: non-empty, trimmed, without a comma. */
  predicate IsSkill(s: string) {
    s != [] && ',' !in s && !IsJsWhitespace(s[0]) && !IsJsWhitespace(s[|s| - 1])
  }

  /** Every element is a skill. */
  predicate AllSkills(skills: seq<string>) {
    forall k :: 0 <= k < |skills| ==> IsSkill(skills[k])
  }

  lemma AllSkillsAppend(h: seq<string>, rest: seq<string>)
    requires AllSkills(h) && AllSkills(rest)
    ensures AllSkills(h + rest)
  {
    forall k | 0 <= k < |h + rest| ensures IsSkill((h + rest)[k]) {
      if k >= |h| {
        assert (h + rest)[k] == rest[k - |h|];
      } else {
        assert (h + rest)[k] == h[k];
      }
    }
  }

  lemma {:induction false} TrimAndDropEmptyAreSkills(pieces: seq<string>)
    requires forall k :: 0 <= k < |pieces| ==> ',' !in pieces[k]
    ensures AllSkills(TrimAndDropEmpty(pieces))
  {
    if pieces != [] {
      var tail := pieces[1..];
      assert forall k :: 0 <= k < |tail| ==> ',' !in tail[k] by {
        forall k | 0 <= k < |tail| ensures ',' !in tail[k] {
          assert tail[k] == pieces[k + 1];
        }
      }
      TrimAndDropEmptyAreSkills(tail);
      assert ',' !in pieces[0];
      KeptIsSkill(pieces[0]);
      AllSkillsAppend(Kept(pieces[0]), TrimAndDropEmpty(tail));
      assert TrimAndDropEmpty(pieces) == Kept(pieces[0]) + TrimAndDropEmpty(tail);
    }
  }

  lemma KeptIsSkill(piece: string)
    requires ',' !in piece
    ensures AllSkills(Kept(piece))
  {
    var t := Trim(piece);
    assert forall c :: c in t ==> c in piece;
  }

  /** Every skill is non-empty, contains no comma, and neither starts nor ends with whitespace. */
  lemma ParseSkillsAreSkills(text: string)
    ensures AllSkills(ParseSkills(text))
  {
    TrimAndDropEmptyAreSkills(Split(text, ','));
  }

  /** The number of occurrences of `c` in `s`. */
  function Count(s: string, c: char): (n: nat) {
    if s == [] then 0 else (if s[0] == c then 1 else 0) + Count(s[1..], c)
  }

  lemma {:induction false} SplitLength(s: string, sep: char)
    ensures |Split(s, sep)| == Count(s, sep) + 1
  {
    if s != [] {
      SplitLength(s[1..], sep);
    }
  }

  /** At most one skill per comma-separated piece: no more skills than commas plus one. */
  lemma ParseSkillsCount(text: string)
    ensures |ParseSkills(text)| <= Count(text, ',') + 1
  {
    SplitLength(text, ',');
  }

  lemma {:induction false} SplitOnlyBlanks(s: string, sep: char)
    requires forall k :: 0 <= k < |s| ==> s[k] == sep || IsJsWhitespace(s[k])
    ensures forall k :: 0 <= k < |Split(s, sep)| ==> forall c :: c in Split(s, sep)[k] ==> IsJsWhitespace(c)
  {
    if s != [] {
      SplitOnlyBlanks(s[1..], sep);
    }
  }

  lemma TrimAllWhitespace(s: string)
    requires forall c :: c in s ==> IsJsWhitespace(c)
    ensures Trim(s) == ""
  {}

  lemma {:induction false} TrimAndDropEmptyOfBlanks(pieces: seq<string>)
    requires forall k :: 0 <= k < |pieces| ==> forall c :: c in pieces[k] ==> IsJsWhitespace(c)
    ensures TrimAndDropEmpty(pieces) == []
  {
    if pieces != [] {
      TrimAllWhitespace(pieces[0]);
      TrimAndDropEmptyOfBlanks(pieces[1..]);
    }
  }

  /** Input made only of commas and whitespace yields no skills. */
  lemma ParseSkillsOfBlanks(text: string)
    requires forall k :: 0 <= k < |text| ==> text[k] == ',' || IsJsWhitespace(text[k])
    ensures ParseSkills(text) == []
  {
    SplitOnlyBlanks(text, ',');
    TrimAndDropEmptyOfBlanks(Split(text, ','));
  }

  lemma {:induction false} SplitConcat(a: string, b: string, sep: char)
    ensures Split(a + [sep] + b, sep) == Split(a, sep) + Split(b, sep)
  {
    if a == [] {
      assert a + [sep] + b == [sep] + b;
      assert ([sep] + b)[1..] == b;
    } else {
      assert (a + [sep] + b)[1..] == a[1..] + [sep] + b;
      SplitConcat(a[1..], b, sep);
    }
  }

  lemma {:induction false} TrimAndDropEmptyAppend(p: seq<string>, q: seq<string>)
    ensures TrimAndDropEmpty(p + q) == TrimAndDropEmpty(p) + TrimAndDropEmpty(q)
  {
    if p == [] {
      assert p + q == q;
    } else {
      var x, t := p[0], p[1..];
      calc {
        TrimAndDropEmpty(p + q);
        { assert p + q == [x] + (t + q); TrimAndDropEmptyCons(x, t + q); }
        Kept(x) + TrimAndDropEmpty(t + q);
        { TrimAndDropEmptyAppend(t, q); }
        Kept(x) + (TrimAndDropEmpty(t) + TrimAndDropEmpty(q));
        { AppendAssoc(Kept(x), TrimAndDropEmpty(t), TrimAndDropEmpty(q)); }
        (Kept(x) + TrimAndDropEmpty(t)) + TrimAndDropEmpty(q);
        { assert p == [x] + t; TrimAndDropEmptyCons(x, t); }
        TrimAndDropEmpty(p) + TrimAndDropEmpty(q);
      }
    }
  }

  lemma TrimAndDropEmptyCons(x: string, rest: seq<string>)
    ensures TrimAndDropEmpty([x] + rest) == Kept(x) + TrimAndDropEmpty(rest)
  {
    assert ([x] + rest)[0] == x;
    assert ([x] + rest)[1..] == rest;
  }

  lemma AppendAssoc<T>(a: seq<T>, b: seq<T>, c: seq<T>)
    ensures a + (b + c) == (a + b) + c
  {}

  /**
    Order: the skills of `a + "," + b` are the skills of `a` followed by the
    skills of `b`, so skills appear in the order of their pieces.
   */
  lemma ParseSkillsConcat(a: string, b: string)
    ensures ParseSkills(a + "," + b) == ParseSkills(a) + ParseSkills(b)
  {
    SplitConcat(a, b, ',');
    TrimAndDropEmptyAppend(Split(a, ','), Split(b, ','));
  }

  /** Splitting and joining again gives back the text. */
  lemma {:induction false} JoinSplit(s: string, sep: char)
    ensures Join(Split(s, sep), sep) == s
  {
    if s != [] {
      var rest := Split(s[1..], sep);
      JoinSplit(s[1..], sep);
      if s[0] == sep {
        assert s == [sep] + s[1..];
        if |rest| == 1 {
          assert Join(rest, sep) == rest[0];
        }
      } else {
        var r := [[s[0]] + rest[0]] + rest[1..];
        assert s == [s[0]] + s[1..];
        if |rest| > 1 {
          assert r[1..] == rest[1..];
          assert Join(rest, sep) == rest[0] + [sep] + Join(rest[1..], sep);
        }
      }
    }
  }

  lemma {:induction false} SplitJoin(pieces: seq<string>, sep: char)
    requires |pieces| >= 1
    requires forall k :: 0 <= k < |pieces| ==> sep !in pieces[k]
    ensures Split(Join(pieces, sep), sep) == pieces
  {
    if |pieces| == 1 {
      SplitNoSep(pieces[0], sep);
    } else {
      var p0, tail := pieces[0], pieces[1..];
      assert Join(pieces, sep) == p0 + [sep] + Join(tail, sep);
      calc {
        Split(Join(pieces, sep), sep);
        Split(p0 + [sep] + Join(tail, sep), sep);
        { SplitConcat(p0, Join(tail, sep), sep); }
        Split(p0, sep) + Split(Join(tail, sep), sep);
        { SplitNoSep(p0, sep); SplitJoin(tail, sep); }
        [p0] + tail;
        { assert pieces == [p0] + tail; }
        pieces;
      }
    }
  }

  lemma {:induction false} SplitNoSep(s: string, sep: char)
    requires sep !in s
    ensures Split(s, sep) == [s]
  {
    if s != [] {
      SplitNoSep(s[1..], sep);
      assert s == [s[0]] + s[1..];
    }
  }

  lemma {:induction false} TrimOfTrimmed(s: string)
    requires s == [] || (!IsJsWhitespace(s[0]) && !IsJsWhitespace(s[|s| - 1]))
    ensures Trim(s) == s
  {}

  lemma {:induction false} TrimAndDropEmptyOfSkills(skills: seq<string>)
    requires AllSkills(skills)
    ensures TrimAndDropEmpty(skills) == skills
  {
    if skills != [] {
      TrimOfTrimmed(skills[0]);
      TrimAndDropEmptyOfSkills(skills[1..]);
      assert skills == [skills[0]] + skills[1..];
    }
  }

  /**
    Round trip: a text whose comma-separated pieces are all already trimmed
    and non-empty parses into exactly those pieces, and joining the skills
    with "," gives the text back.
   */
  lemma ParseSkillsRoundTrip(text: string)
    requires AllSkills(Split(text, ','))
    ensures ParseSkills(text) == Split(text, ',')
    ensures Join(ParseSkills(text), ',') == text
  {
    TrimAndDropEmptyOfSkills(Split(text, ','));
    JoinSplit(text, ',');
  }

  /** Conversely, joining a list of skills with "," and parsing it gives the list back. */
  lemma ParseSkillsOfJoin(skills: seq<string>)
    requires AllSkills(skills)
    ensures ParseSkills(Join(skills, ',')) == skills
  {
    if skills == [] {
      assert Split("", ',') == [""];
    } else {
      SplitJoin(skills, ',');
      TrimAndDropEmptyOfSkills(skills);
    }
  }
}
