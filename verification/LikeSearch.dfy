/** The catalogue search term: `%` + escaped term + `%` under LIKE with `\` as the escape character. */
module LikeSearch {

  predicate Special(c: char) { c == '\\' || c == '%' || c == '_' }

  /** Prefixes every special character with the escape character. */
  function EscapeLike(value: string): string {
    if value == [] then []
    else (if Special(value[0]) then ['\\', value[0]] else [value[0]]) + EscapeLike(value[1..])
  }

  /** SQL LIKE: `%` is any run, `_` any one character, `\` makes the next character literal. */
  ghost predicate Like(p: string, s: string)
    decreases |p|
  {
    if p == [] then s == []
    else if p[0] == '%' then exists k :: 0 <= k <= |s| && Like(p[1..], s[k..])
    else if p[0] == '\\' && |p| > 1 then s != [] && s[0] == p[1] && Like(p[2..], s[1..])
    else if p[0] == '_' then s != [] && Like(p[1..], s[1..])
    else s != [] && s[0] == p[0] && Like(p[1..], s[1..])
  }

  /** An escaped term matches exactly itself, wherever it stands in a pattern. */
  lemma {:induction false} EscapedIsLiteral(term: string, rest: string, s: string)
    ensures Like(EscapeLike(term) + rest, s) <==> |term| <= |s| && s[..|term|] == term && Like(rest, s[|term|..])
    decreases |term|
  {
    if term == [] {
      assert EscapeLike(term) + rest == rest;
      assert s[0..] == s && s[..0] == [];
    } else {
      var p := EscapeLike(term) + rest;
      var tail := EscapeLike(term[1..]) + rest;
      if Special(term[0]) { assert p[2..] == tail; } else { assert p[1..] == tail; }
      if s != [] {
        EscapedIsLiteral(term[1..], rest, s[1..]);
        if |term| <= |s| {
          assert s[1..][|term| - 1..] == s[|term|..];
          assert s[..|term|] == [s[0]] + s[1..][..|term| - 1];
          assert term == [term[0]] + term[1..];
        }
      }
    }
  }

  predicate OccursAt(s: string, term: string, i: int) { 0 <= i <= |s| - |term| && s[i..i + |term|] == term }

  ghost predicate Contains(s: string, term: string) { exists i :: OccursAt(s, term, i) }

  lemma PercentMatchesAll(s: string)
    ensures Like("%", s)
  {
    assert "%"[1..] == [] && s[|s|..] == [];
  }

  /** The search matches exactly the strings that contain the term, whatever characters the term is made of. */
  lemma SearchIsSubstring(term: string, s: string)
    ensures Like("%" + EscapeLike(term) + "%", s) <==> Contains(s, term)
  {
    var p := "%" + EscapeLike(term) + "%";
    var q := EscapeLike(term) + "%";
    assert p[0] == '%' && p[1..] == q;
    forall k | 0 <= k <= |s| ensures Like(q, s[k..]) <==> OccursAt(s, term, k) {
      EscapedIsLiteral(term, "%", s[k..]);
      if k <= |s| - |term| {
        assert s[k..][..|term|] == s[k..k + |term|];
        PercentMatchesAll(s[k..][|term|..]);
      }
    }
    if Contains(s, term) {
      var i :| OccursAt(s, term, i);
      assert Like(p[1..], s[i..]);
    }
  }
}
