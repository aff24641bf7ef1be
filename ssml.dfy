/** The reply builder of the voice webhook: text is escaped for SSML (the
    character-data escaping of section 2.4 of XML 1.0, as SSML 1.1 uses it)
    and wrapped in `<speak>` inside the fixed Alexa response envelope. */
module Ssml {
  import opened Wrappers
  import opened PyStrings

  /** A Python value handed to the reply builder: usually a string, but the
      upstream `content` field may be JSON `null` or any other JSON value. */
  datatype PyValue = PyStr(s: string) | PyNone | PyOther(shown: string)

  /** Python's `str(v)`; `shown` is the text `str` gives for values other
      than strings and `None`. */
  function Str(v: PyValue): string {
    match v
    case PyStr(s) => s
    case PyNone => "None"
    case PyOther(shown) => shown
  }

  /** The escape of one character: the three markup metacharacters become
      entity references, every other character stands for itself. */
  function EscapeChar(c: char): string {
    if c == '&' then "&amp;"
    else if c == '<' then "&lt;"
    else if c == '>' then "&gt;"
    else [c]
  }

  /** Reference escaping, one character at a time. */
  function EscapeEach(s: string): string {
    if s == [] then [] else EscapeChar(s[0]) + EscapeEach(s[1..])
  }

  /** The escaping as the service writes it: three chained `replace` calls,
      `&` first so that the `&` of the entities added later is not escaped
      again. */
  function Escape(s: string): (r: string)
    ensures '<' !in r && '>' !in r
    ensures forall d :: d in r ==> d in s || d in "&amp;&lt;&gt;"
  {
    ReplaceChar(ReplaceChar(ReplaceChar(s, '&', "&amp;"), '<', "&lt;"), '>', "&gt;")
  }

  /** One of the three entity references starts at index `i` of `e`. */
  predicate EntityAt(e: string, i: int) {
    OccursAt(e, "&amp;", i) || OccursAt(e, "&lt;", i) || OccursAt(e, "&gt;", i)
  }

  /** Safe SSML character data: no raw `<` or `>`, and every `&` begins one
      of the three entity references. */
  predicate WellEscaped(e: string) {
    forall i :: 0 <= i < |e| ==> e[i] != '<' && e[i] != '>' && (e[i] == '&' ==> EntityAt(e, i))
  }

  /** Reading SSML character data back: each entity reference becomes the
      character it stands for. */
  function Unescape(e: string): string
    decreases |e|
  {
    if e == [] then []
    else if OccursAt(e, "&amp;", 0) then "&" + Unescape(e[5..])
    else if OccursAt(e, "&lt;", 0) then "<" + Unescape(e[4..])
    else if OccursAt(e, "&gt;", 0) then ">" + Unescape(e[4..])
    else [e[0]] + Unescape(e[1..])
  }

  lemma ReplaceCharOne(c: char, d: char, rep: string)
    ensures ReplaceChar([c], d, rep) == if c == d then rep else [c]
  {
    assert [c][1..] == [];
    var head := if c == d then rep else [c];
    assert ReplaceChar([c], d, rep) == head + ReplaceChar([], d, rep);
    assert head + [] == head;
  }

  /** The chained replacements on a single character. */
  lemma EscapeOne(c: char)
    ensures Escape([c]) == EscapeChar(c)
  {
    ReplaceCharOne(c, '&', "&amp;");
    var a := ReplaceChar([c], '&', "&amp;");
    if c == '&' {
      ReplaceCharAbsent(a, '<', "&lt;");
      ReplaceCharAbsent(a, '>', "&gt;");
    } else {
      ReplaceCharOne(c, '<', "&lt;");
      var b := ReplaceChar(a, '<', "&lt;");
      if c == '<' {
        ReplaceCharAbsent(b, '>', "&gt;");
      } else {
        ReplaceCharOne(c, '>', "&gt;");
      }
    }
  }

  /** The chained replacements escape the text piece by piece. */
  lemma EscapeAppend(a: string, b: string)
    ensures Escape(a + b) == Escape(a) + Escape(b)
  {
    ReplaceCharAppend(a, b, '&', "&amp;");
    var a1, b1 := ReplaceChar(a, '&', "&amp;"), ReplaceChar(b, '&', "&amp;");
    ReplaceCharAppend(a1, b1, '<', "&lt;");
    var a2, b2 := ReplaceChar(a1, '<', "&lt;"), ReplaceChar(b1, '<', "&lt;");
    ReplaceCharAppend(a2, b2, '>', "&gt;");
  }

  /** Because `&` is replaced first, the chained `replace` calls agree with
      escaping every character on its own. */
  lemma {:induction false} EscapeIsPerCharacter(s: string)
    ensures Escape(s) == EscapeEach(s)
  {
    if s != [] {
      assert s == [s[0]] + s[1..];
      EscapeAppend([s[0]], s[1..]);
      EscapeOne(s[0]);
      EscapeIsPerCharacter(s[1..]);
    }
  }

  /** An occurrence inside `t` is an occurrence inside `a + t`, shifted. */
  lemma OccursAfterPrefix(a: string, t: string, pat: string, j: int)
    requires OccursAt(t, pat, j)
    ensures OccursAt(a + t, pat, |a| + j)
  {
    assert (a + t)[|a| + j..|a| + j + |pat|] == t[j..j + |pat|];
  }

  /** Prefixing the escape of one character keeps character data safe. */
  lemma WellEscapedPrefix(c: char, t: string)
    requires WellEscaped(t)
    ensures WellEscaped(EscapeChar(c) + t)
  {
    var k := EscapeChar(c);
    var e := k + t;
    forall i | 0 <= i < |e|
      ensures e[i] != '<' && e[i] != '>' && (e[i] == '&' ==> EntityAt(e, i))
    {
      if i < |k| {
        if c == '&' || c == '<' || c == '>' {
          assert e[..|k|] == k;
          assert e[0..|k|] == k;
        }
      } else {
        assert e[i] == t[i - |k|];
        if t[i - |k|] == '&' {
          var j := i - |k|;
          if OccursAt(t, "&amp;", j) { OccursAfterPrefix(k, t, "&amp;", j); }
          else if OccursAt(t, "&lt;", j) { OccursAfterPrefix(k, t, "&lt;", j); }
          else { OccursAfterPrefix(k, t, "&gt;", j); }
        }
      }
    }
  }

  /** Escaped text is safe character data. */
  lemma {:induction false} EscapeEachWellEscaped(s: string)
    ensures WellEscaped(EscapeEach(s))
  {
    if s != [] {
      EscapeEachWellEscaped(s[1..]);
      WellEscapedPrefix(s[0], EscapeEach(s[1..]));
    }
  }

  /** Escaped text holds no raw `<` or `>`, and each `&` in it begins
      `&amp;`, `&lt;` or `&gt;`. */
  lemma EscapeWellEscaped(s: string)
    ensures WellEscaped(Escape(s))
    ensures '<' !in Escape(s) && '>' !in Escape(s)
  {
    EscapeIsPerCharacter(s);
    EscapeEachWellEscaped(s);
  }

  /** Unescaping undoes escaping, so no text is lost or altered. */
  lemma {:induction false} UnescapeEscape(s: string)
    ensures Unescape(Escape(s)) == s
  {
    EscapeIsPerCharacter(s);
    UnescapeEscapeEach(s);
  }

  lemma {:induction false} UnescapeEscapeEach(s: string)
    ensures Unescape(EscapeEach(s)) == s
  {
    if s != [] {
      var c, t := s[0], EscapeEach(s[1..]);
      var e := EscapeChar(c) + t;
      UnescapeEscapeEach(s[1..]);
      if c == '&' {
        assert OccursAt(e, "&amp;", 0) && e[5..] == t;
      } else if c == '<' {
        assert e[1] == 'l' && e[4..] == t;
        assert !OccursAt(e, "&amp;", 0) && OccursAt(e, "&lt;", 0);
      } else if c == '>' {
        assert e[1] == 'g' && e[4..] == t;
        assert !OccursAt(e, "&amp;", 0) && !OccursAt(e, "&lt;", 0) && OccursAt(e, "&gt;", 0);
      } else {
        assert e[0] == c && e[1..] == t;
        assert !OccursAt(e, "&amp;", 0) && !OccursAt(e, "&lt;", 0) && !OccursAt(e, "&gt;", 0);
      }
      assert s == [c] + s[1..];
    }
  }

  /** Dropping a prefix of safe character data leaves safe character data. */
  lemma WellEscapedDrop(e: string, k: nat)
    requires WellEscaped(e) && k <= |e|
    ensures WellEscaped(e[k..])
  {
    var d := e[k..];
    forall i | 0 <= i < |d|
      ensures d[i] != '<' && d[i] != '>' && (d[i] == '&' ==> EntityAt(d, i))
    {
      assert d[i] == e[k + i];
      if d[i] == '&' {
        assert EntityAt(e, k + i);
        if OccursAt(e, "&amp;", k + i) {
          assert d[i..i + 5] == e[k + i..k + i + 5];
        } else if OccursAt(e, "&lt;", k + i) {
          assert d[i..i + 4] == e[k + i..k + i + 4];
        } else {
          assert d[i..i + 4] == e[k + i..k + i + 4];
        }
      }
    }
  }

  /** On safe character data, escaping undoes unescaping: escaping is a
      bijection between all texts and safe character data. */
  lemma {:induction false} EscapeUnescape(e: string)
    requires WellEscaped(e)
    ensures Escape(Unescape(e)) == e
    decreases |e|
  {
    EscapeIsPerCharacter(Unescape(e));
    if e != [] {
      if OccursAt(e, "&amp;", 0) {
        WellEscapedDrop(e, 5);
        EscapeUnescape(e[5..]);
        EscapeIsPerCharacter(Unescape(e[5..]));
        assert Unescape(e) == ['&'] + Unescape(e[5..]);
        assert e == e[..5] + e[5..];
      } else if OccursAt(e, "&lt;", 0) {
        WellEscapedDrop(e, 4);
        EscapeUnescape(e[4..]);
        EscapeIsPerCharacter(Unescape(e[4..]));
        assert Unescape(e) == ['<'] + Unescape(e[4..]);
        assert e == e[..4] + e[4..];
      } else if OccursAt(e, "&gt;", 0) {
        WellEscapedDrop(e, 4);
        EscapeUnescape(e[4..]);
        EscapeIsPerCharacter(Unescape(e[4..]));
        assert Unescape(e) == ['>'] + Unescape(e[4..]);
        assert e == e[..4] + e[4..];
      } else {
        assert e[0] != '&' && e[0] != '<' && e[0] != '>';
        WellEscapedDrop(e, 1);
        EscapeUnescape(e[1..]);
        EscapeIsPerCharacter(Unescape(e[1..]));
        assert Unescape(e) == [e[0]] + Unescape(e[1..]);
        assert e == [e[0]] + e[1..];
      }
    }
  }

  lemma {:induction false} EscapeEachLength(s: string)
    ensures |EscapeEach(s)| == |s| + 4 * Count(s, '&') + 3 * Count(s, '<') + 3 * Count(s, '>')
  {
    if s != [] {
      EscapeEachLength(s[1..]);
    }
  }

  /** Each `&` adds four characters and each `<` or `>` adds three. */
  lemma EscapeLength(s: string)
    ensures |Escape(s)| == |s| + 4 * Count(s, '&') + 3 * Count(s, '<') + 3 * Count(s, '>')
  {
    EscapeIsPerCharacter(s);
    EscapeEachLength(s);
  }

  /** Escaping changes a text exactly when it holds a metacharacter; so it
      is not idempotent (`&` becomes `&amp;`, then `&amp;amp;`). */
  lemma EscapeFixedPoints(s: string)
    ensures Escape(s) == s <==> '&' !in s && '<' !in s && '>' !in s
  {
    EscapeLength(s);
    if '&' !in s && '<' !in s && '>' !in s {
      ReplaceCharAbsent(s, '&', "&amp;");
      ReplaceCharAbsent(s, '<', "&lt;");
      ReplaceCharAbsent(s, '>', "&gt;");
    }
  }

  /** The JSON reply: `version`, `response.outputSpeech.type`,
      `response.outputSpeech.ssml` and `response.shouldEndSession`. */
  datatype AlexaReply = AlexaReply(version: string, speechType: string, ssml: string, shouldEndSession: bool)

  /** What a voice platform reads out of an SSML document of the shape
      `<speak>…</speak>` whose body is safe character data. */
  function SpokenText(ssml: string): Option<string> {
    if |ssml| >= 15 && ssml[..7] == "<speak>" && ssml[|ssml| - 8..] == "</speak>"
       && WellEscaped(ssml[7..|ssml| - 8])
    then Some(Unescape(ssml[7..|ssml| - 8]))
    else None
  }

  /** `_alexa_response`: coerce to a string, escape, wrap in `<speak>`, and
      keep the session open. The platform reads back exactly the text. */
  function AlexaResponse(text: PyValue): (r: AlexaReply)
    ensures r.version == "1.0" && r.speechType == "SSML" && !r.shouldEndSession
    ensures SpokenText(r.ssml) == Some(Str(text))
  {
    var safeText := Escape(Str(text));
    var ssml := "<speak>" + safeText + "</speak>";
    EscapeWellEscaped(Str(text));
    UnescapeEscape(Str(text));
    assert ssml[..7] == "<speak>" && ssml[|ssml| - 8..] == "</speak>";
    assert ssml[7..|ssml| - 8] == safeText;
    AlexaReply("1.0", "SSML", ssml, false)
  }

  /** In `<speak>` + `body` + `</speak>` with a body free of `<` and `>`,
      those two characters occur only in the tags, at their ends. */
  lemma {:induction false} TagsHoldAllMarkup(body: string)
    requires '<' !in body && '>' !in body
    ensures var ssml := "<speak>" + body + "</speak>";
      forall i :: 0 <= i < |ssml| && (ssml[i] == '<' || ssml[i] == '>') ==>
        i == 0 || i == 6 || i == |ssml| - 8 || i == |ssml| - 1
  {
    var ssml := "<speak>" + body + "</speak>";
    forall i | 0 <= i < |ssml| && (ssml[i] == '<' || ssml[i] == '>')
      ensures i == 0 || i == 6 || i == |ssml| - 8 || i == |ssml| - 1
    {
      if i < 7 {
        assert ssml[i] == "<speak>"[i];
      } else if i >= 7 + |body| {
        assert ssml[i] == "</speak>"[i - 7 - |body|];
      }
    }
  }

  /** The only `<` and `>` in the reply's SSML are those of the two
      `<speak>` tags: nothing in the text can open or close markup. */
  lemma MarkupOnlyInEnvelope(text: PyValue)
    ensures var ssml := AlexaResponse(text).ssml;
      forall i :: 0 <= i < |ssml| && (ssml[i] == '<' || ssml[i] == '>') ==>
        i == 0 || i == 6 || i == |ssml| - 8 || i == |ssml| - 1
  {
    var body := Escape(Str(text));
    EscapeWellEscaped(Str(text));
    assert AlexaResponse(text).ssml == "<speak>" + body + "</speak>";
    TagsHoldAllMarkup(body);
  }
}
