/** Code-fence cleaning, shared by both provider wrappers (lib/gemini.ts
    and lib/openai.ts): the reply is trimmed, a leading "```json" or "```"
    is removed with the whitespace after it, and a trailing "```" with the
    whitespace before it. The result is what reaches `JSON.parse`. */
module Fences {
  import opened Text

  const JSON_FENCE := "```json"
  const FENCE := "```"

  /** Text with no whitespace at either end, as `trim` leaves it. */
  predicate Trimmed(s: string) {
    s == [] || (!IsWhitespace(s[0]) && !IsWhitespace(s[|s| - 1]))
  }

  /** A leading "```json" is removed with the whitespace after it. */
  function StripJsonFence(t: string): string {
    if StartsWith(t, JSON_FENCE) then TrimStart(t[7..]) else t
  }

  /** A leading "```" is removed with the whitespace after it. */
  function StripOpenFence(t: string): string {
    if StartsWith(t, FENCE) then TrimStart(t[3..]) else t
  }

  /** A trailing "```" is removed with the whitespace before it. */
  function StripCloseFence(t: string): string {
    if EndsWith(t, FENCE) then TrimEnd(t[..|t| - 3]) else t
  }

  /** The text handed to `JSON.parse`: the trimmed reply with the three
      fence removals applied in order. */
  function CleanFences(raw: string): string {
    StripCloseFence(StripOpenFence(StripJsonFence(Trim(raw))))
  }

  /** The cleaned text is a contiguous piece of the raw reply, with no
      whitespace at either end. */
  lemma CleanFencesTakesInfix(raw: string)
    ensures Contains(raw, CleanFences(raw)) && Trimmed(CleanFences(raw))
  {
    var t := Trim(raw);
    var a := StripJsonFence(t);
    var b := StripOpenFence(a);
    var c := StripCloseFence(b);
    TrimTakesInfix(raw);
    StripsTakeInfix(t);
    StripsTakeInfix(a);
    StripsTakeInfix(b);
    ContainsTransitive(raw, t, a);
    ContainsTransitive(raw, a, b);
    ContainsTransitive(raw, b, c);
  }

  lemma TrimTakesInfix(raw: string)
    ensures Contains(raw, Trim(raw)) && Trimmed(Trim(raw))
  {
    var s := TrimStart(raw);
    var t := TrimEnd(s);
    assert t == raw[|raw| - |s|..|raw| - |s| + |t|];
    ContainsAt(raw, t, |raw| - |s|);
  }

  /** Each fence removal keeps a piece of its input and keeps it trimmed. */
  lemma StripsTakeInfix(t: string)
    ensures Contains(t, StripJsonFence(t)) && (Trimmed(t) ==> Trimmed(StripJsonFence(t)))
    ensures Contains(t, StripOpenFence(t)) && (Trimmed(t) ==> Trimmed(StripOpenFence(t)))
    ensures Contains(t, StripCloseFence(t)) && (Trimmed(t) ==> Trimmed(StripCloseFence(t)))
  {
    PrefixContained(t, t);
    if StartsWith(t, JSON_FENCE) {
      DropFront(t, 7);
    }
    if StartsWith(t, FENCE) {
      DropFront(t, 3);
    }
    if EndsWith(t, FENCE) {
      var c := TrimEnd(t[..|t| - 3]);
      assert c == t[..|c|];
      PrefixContained(t, c);
    }
  }

  lemma DropFront(t: string, n: nat)
    requires n <= |t|
    ensures Contains(t, TrimStart(t[n..]))
    ensures Trimmed(t) ==> Trimmed(TrimStart(t[n..]))
  {
    DropFrontInfix(t, n);
    if Trimmed(t) {
      DropFrontTrimmed(t, n);
    }
  }

  lemma DropFrontInfix(t: string, n: nat)
    requires n <= |t|
    ensures Contains(t, TrimStart(t[n..]))
  {
    SuffixOfDrop(t, n);
    SuffixContained(t, TrimStart(t[n..]));
  }

  lemma DropFrontTrimmed(t: string, n: nat)
    requires n <= |t| && Trimmed(t)
    ensures Trimmed(TrimStart(t[n..]))
  {
    var a := TrimStart(t[n..]);
    SuffixOfDrop(t, n);
    if a != [] {
      assert a[|a| - 1] == t[|t| - 1];
    }
  }

  lemma SuffixOfDrop(t: string, n: nat)
    requires n <= |t|
    ensures |TrimStart(t[n..])| <= |t| && t[|t| - |TrimStart(t[n..])|..] == TrimStart(t[n..])
  {
    var u := t[n..];
    var a := TrimStart(u);
    assert a == u[|u| - |a|..];
    assert u[|u| - |a|..] == t[|t| - |a|..];
  }

  /** A trimmed reply without a leading or trailing fence reaches `JSON.parse`
      unchanged. */
  lemma UnfencedReplyUnchanged(raw: string)
    requires !StartsWith(Trim(raw), FENCE) && !EndsWith(Trim(raw), FENCE)
    ensures CleanFences(raw) == Trim(raw)
  {
    var t := Trim(raw);
    assert !StartsWith(t, JSON_FENCE) by {
      if |JSON_FENCE| <= |t| {
        assert t[..7][..3] == t[..3];
      }
    }
  }

  /** Whitespace around text that starts and ends with a non-whitespace
      character is exactly what `trim` removes. */
  lemma TrimPadded(lead: string, body: string, trail: string)
    requires AllWhitespace(lead) && AllWhitespace(trail)
    requires body != [] && !IsWhitespace(body[0]) && !IsWhitespace(body[|body| - 1])
    ensures Trim(lead + body + trail) == body
  {
    var rest := body + trail;
    assert rest[0] == body[0];
    assert lead + body + trail == lead + rest;
    TrimStartPadded(lead, rest);
    TrimEndPadded(body, trail);
  }

  lemma {:induction false} TrimStartPadded(lead: string, s: string)
    requires AllWhitespace(lead) && s != [] && !IsWhitespace(s[0])
    ensures TrimStart(lead + s) == s
    decreases |lead|
  {
    if lead == [] {
      assert lead + s == s;
    } else {
      var x := lead + s;
      assert x[0] == lead[0];
      assert x[1..] == lead[1..] + s;
      TrimStartPadded(lead[1..], s);
    }
  }

  lemma {:induction false} TrimEndPadded(s: string, trail: string)
    requires AllWhitespace(trail) && s != [] && !IsWhitespace(s[|s| - 1])
    ensures TrimEnd(s + trail) == s
    decreases |trail|
  {
    if trail == [] {
      assert s + trail == s;
    } else {
      var x := s + trail;
      assert x[|x| - 1] == trail[|trail| - 1];
      assert x[..|x| - 1] == s + trail[..|trail| - 1];
      TrimEndPadded(s, trail[..|trail| - 1]);
    }
  }

  /** The "```json" removal takes the fence and the whitespace after it. */
  lemma JsonFenceStep(ws: string, rest: string)
    requires AllWhitespace(ws) && rest != [] && !IsWhitespace(rest[0])
    ensures StripJsonFence(JSON_FENCE + ws + rest) == rest
  {
    var t := JSON_FENCE + ws + rest;
    assert t[..7] == JSON_FENCE;
    assert t[7..] == ws + rest;
    TrimStartPadded(ws, rest);
  }

  /** The "```" removal takes the fence and the whitespace after it. */
  lemma OpenFenceStep(ws: string, rest: string)
    requires AllWhitespace(ws) && rest != [] && !IsWhitespace(rest[0])
    ensures StripOpenFence(FENCE + ws + rest) == rest
  {
    var t := FENCE + ws + rest;
    assert t[..3] == FENCE;
    assert t[3..] == ws + rest;
    TrimStartPadded(ws, rest);
  }

  /** The trailing "```" removal takes the fence and the whitespace before it. */
  lemma CloseFenceStep(json: string, ws: string)
    requires AllWhitespace(ws) && json != [] && !IsWhitespace(json[|json| - 1])
    ensures StripCloseFence(json + ws + FENCE) == json
  {
    var t := json + ws + FENCE;
    assert t[|t| - 3..] == FENCE;
    assert t[..|t| - 3] == json + ws;
    TrimEndPadded(json, ws);
  }

  /** Whitespace around a text that starts and ends with a backtick is what
      `trim` removes. */
  lemma FenceBodyTrims(lead: string, body: string, trail: string)
    requires AllWhitespace(lead) && AllWhitespace(trail)
    requires |body| >= 3 && body[0] == '`' && body[|body| - 1] == '`'
    ensures Trim(lead + body + trail) == body
  {
    TrimPadded(lead, body, trail);
  }

  /** A "```json" fence around a JSON text is removed, whatever whitespace
      surrounds the fences and the text. */
  lemma JsonFenceRemoved(lead: string, ws1: string, json: string, ws2: string, trail: string)
    requires AllWhitespace(lead) && AllWhitespace(ws1) && AllWhitespace(ws2) && AllWhitespace(trail)
    requires json != [] && !IsWhitespace(json[0]) && !IsWhitespace(json[|json| - 1])
    requires json[0] != '`'
    ensures CleanFences(lead + JSON_FENCE + ws1 + json + ws2 + FENCE + trail) == json
  {
    var body := JSON_FENCE + ws1 + json + ws2 + FENCE;
    assert lead + JSON_FENCE + ws1 + json + ws2 + FENCE + trail == lead + body + trail;
    FenceBodyTrims(lead, body, trail);
    JsonFencedBody(ws1, json, ws2);
  }

  lemma JsonFencedBody(ws1: string, json: string, ws2: string)
    requires AllWhitespace(ws1) && AllWhitespace(ws2)
    requires json != [] && !IsWhitespace(json[0]) && !IsWhitespace(json[|json| - 1])
    requires json[0] != '`'
    ensures StripCloseFence(StripOpenFence(StripJsonFence(JSON_FENCE + ws1 + json + ws2 + FENCE))) == json
  {
    var inner := json + ws2 + FENCE;
    assert JSON_FENCE + ws1 + json + ws2 + FENCE == JSON_FENCE + ws1 + inner;
    assert inner[0] == json[0];
    JsonFenceStep(ws1, inner);
    assert !StartsWith(inner, FENCE) by {
      assert inner[..3][0] == inner[0];
    }
    CloseFenceStep(json, ws2);
  }

  /** "json" cannot begin inside whitespace or a fence, so a text that starts
      "```" + `ws` + `rest` starts with "```json" only when `ws` + `rest`
      starts with "json". */
  lemma NoJsonTagInside(ws: string, json: string, tail: string)
    requires AllWhitespace(ws) && !StartsWith(ws + json, "json")
    requires forall k :: 0 <= k < |tail| ==> IsWhitespace(tail[k]) || tail[k] == '`'
    ensures !StartsWith(FENCE + ws + json + tail, JSON_FENCE)
  {
    var t := FENCE + ws + json + tail;
    var u := ws + json;
    if |t| >= 7 {
      assert t[..7][3..] == t[3..7];
      if |u| >= 4 {
        assert u[..4] == t[3..7];
      } else {
        assert t[3 + |u|] == tail[0];
        assert t[..7][3 + |u|] == t[3 + |u|];
      }
    }
  }

  /** A plain "```" fence around a JSON text is removed too, unless the text
      inside the fence itself begins with "json". */
  lemma PlainFenceRemoved(lead: string, ws1: string, json: string, ws2: string, trail: string)
    requires AllWhitespace(lead) && AllWhitespace(ws1) && AllWhitespace(ws2) && AllWhitespace(trail)
    requires json != [] && !IsWhitespace(json[0]) && !IsWhitespace(json[|json| - 1])
    requires json[0] != '`'
    requires !StartsWith(ws1 + json, "json")
    ensures CleanFences(lead + FENCE + ws1 + json + ws2 + FENCE + trail) == json
  {
    var body := FENCE + ws1 + json + ws2 + FENCE;
    assert lead + FENCE + ws1 + json + ws2 + FENCE + trail == lead + body + trail;
    FenceBodyTrims(lead, body, trail);
    PlainFencedBody(ws1, json, ws2);
  }

  lemma PlainFencedBody(ws1: string, json: string, ws2: string)
    requires AllWhitespace(ws1) && AllWhitespace(ws2)
    requires json != [] && !IsWhitespace(json[0]) && !IsWhitespace(json[|json| - 1])
    requires json[0] != '`'
    requires !StartsWith(ws1 + json, "json")
    ensures StripCloseFence(StripOpenFence(StripJsonFence(FENCE + ws1 + json + ws2 + FENCE))) == json
  {
    var inner := json + ws2 + FENCE;
    var body := FENCE + ws1 + json + ws2 + FENCE;
    assert body == FENCE + ws1 + json + (ws2 + FENCE);
    NoJsonTagInside(ws1, json, ws2 + FENCE);
    assert body == FENCE + ws1 + inner;
    assert inner[0] == json[0];
    OpenFenceStep(ws1, inner);
    CloseFenceStep(json, ws2);
  }
}
