/** Splitting and matching of strings, as the idempotency keys use them. */
module Keys {

  predicate ColonFree(s: string) { ':' !in s }

  function Split(s: string): (r: seq<string>)
    ensures 0 < |r|
  {
    if s == "" then [""]
    else
      var rest := Split(s[1..]);
      if s[0] == ':' then [""] + rest else [[s[0]] + rest[0]] + rest[1..]
  }

  function Join(parts: seq<string>): string {
    if parts == [] then "" else if |parts| == 1 then parts[0] else parts[0] + ":" + Join(parts[1..])
  }

  lemma {:induction false} JoinSplit(s: string)
    ensures Join(Split(s)) == s
    ensures forall part :: part in Split(s) ==> ColonFree(part)
  {
    if s != "" {
      JoinSplit(s[1..]);
      var rest := Split(s[1..]);
      assert s == [s[0]] + s[1..];
      if s[0] == ':' {
        assert Split(s)[1..] == rest;
      } else {
        assert forall part :: part in Split(s) ==> part == [s[0]] + rest[0] || part in rest;
        assert rest[0] in rest;
        if |rest| > 1 { assert Split(s)[1..] == rest[1..]; }
      }
    }
  }

  lemma {:induction false} SplitAround(a: string, b: string)
    ensures Split(a + ":" + b) == Split(a) + Split(b)
  {
    if a == "" {
      assert (a + ":" + b)[1..] == b;
    } else {
      assert (a + ":" + b)[1..] == a[1..] + ":" + b;
      SplitAround(a[1..], b);
    }
  }

  lemma SplitInThree(a: string, b: string, c: string)
    ensures Split(a + ":" + b + ":" + c) == Split(a) + Split(b) + Split(c)
  {
    SplitAround(a + ":" + b, c);
    SplitAround(a, b);
  }

  lemma {:induction false} SplitOfColonFree(s: string)
    ensures ColonFree(s) <==> Split(s) == [s]
  {
    if s != "" {
      SplitOfColonFree(s[1..]);
      JoinSplit(s[1..]);
      assert s == [s[0]] + s[1..];
    }
  }

  /** SQL `LIKE`: `%` is any run of characters, `_` any one, a backslash quotes the next. */
  predicate Like(pattern: string, s: string)
    decreases |pattern| + |s|
  {
    if pattern == "" then s == ""
    else if pattern[0] == '%' then Like(pattern[1..], s) || (s != "" && Like(pattern, s[1..]))
    else if pattern[0] == '\\' then |pattern| > 1 && s != "" && s[0] == pattern[1] && Like(pattern[2..], s[1..])
    else s != "" && (pattern[0] == '_' || pattern[0] == s[0]) && Like(pattern[1..], s[1..])
  }

  lemma {:induction false} LikeAnything(s: string)
    ensures Like("%", s)
  {
    if s != "" { LikeAnything(s[1..]); }
  }

  /** A text matches itself, underscores included, so a shared beginning can be dropped. */
  lemma {:induction false} LikeSame(text: string, pattern: string, s: string)
    requires '%' !in text && '\\' !in text
    ensures Like(text + pattern, text + s) <==> Like(pattern, s)
  {
    if text == "" {
      assert text + pattern == pattern && text + s == s;
    } else {
      assert (text + pattern)[1..] == text[1..] + pattern && (text + s)[1..] == text[1..] + s;
      LikeSame(text[1..], pattern, s);
    }
  }

  /** Text without wildcards matches only itself. */
  lemma {:induction false} LikeText(text: string, pattern: string, s: string)
    requires '%' !in text && '\\' !in text && '_' !in text
    ensures Like(text + pattern, s) <==> text <= s && Like(pattern, s[|text|..])
  {
    if text == "" {
      assert text + pattern == pattern && s[0..] == s;
    } else {
      assert (text + pattern)[1..] == text[1..] + pattern;
      if s != "" {
        LikeText(text[1..], pattern, s[1..]);
        assert text <= s <==> text[0] == s[0] && text[1..] <= s[1..] by {
          assert text == [text[0]] + text[1..] && s == [s[0]] + s[1..];
        }
        if text <= s { assert s[1..][|text| - 1..] == s[|text|..]; }
      }
    }
  }

  /** A colon-free name before the first colon is that name. */
  lemma NameBeforeColon(a: string, b: string, rest: string)
    requires ColonFree(a) && ColonFree(b)
    ensures a + ":" <= b + ":" + rest <==> a == b
  {
    var s := b + ":" + rest;
    if a + ":" <= s {
      assert forall k :: 0 <= k < |a| ==> s[k] == (a + ":")[k] == a[k];
      assert forall k :: 0 <= k < |b| ==> s[k] == b[k];
      assert s[|a|] == (a + ":")[|a|] == ':' && s[|b|] == ':';
      assert |a| == |b|;
      assert s[..|a|] == (a + ":")[..|a|] == a;
    }
  }
}
