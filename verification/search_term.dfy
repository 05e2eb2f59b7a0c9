/** The search route's handling of its query (server.js): a query shorter than two
    characters is refused with 400, and otherwise it is made URL-safe by turning each
    run of whitespace into one '+' and then deleting every character outside
    [A-Za-z0-9+]. */
module SearchTerm {
  import opened Network

  /** A character the regular expression class `\s` matches. */
  predicate IsJsSpace(c: char)
  {
    || ('\U{0009}' <= c <= '\U{000D}') || c == '\U{0020}' || c == '\U{00A0}' || c == '\U{1680}'
    || ('\U{2000}' <= c <= '\U{200A}') || c == '\U{2028}' || c == '\U{2029}' || c == '\U{202F}'
    || c == '\U{205F}' || c == '\U{3000}' || c == '\U{FEFF}'
  }

  predicate IsAlnum(c: char)
  {
    ('a' <= c <= 'z') || ('A' <= c <= 'Z') || ('0' <= c <= '9')
  }

  /** A character of the class `[a-zA-Z0-9+]`. */
  predicate IsAllowed(c: char)
  {
    IsAlnum(c) || c == '+'
  }

  predicate AllAllowed(s: string)
  {
    forall i :: 0 <= i < |s| ==> IsAllowed(s[i])
  }

  /** The letters and digits of `s`, in order. */
  function Alnums(s: string): (r: string)
    ensures |r| <= |s|
  {
    if |s| == 0 then ""
    else (if IsAlnum(s[0]) then [s[0]] else "") + Alnums(s[1..])
  }

  /** `s.replace(/\s+/g, '+')`: the '+' stands at the last whitespace character of a run. */
  function CollapseSpaces(s: string): (r: string)
    ensures |r| <= |s|
    ensures forall i :: 0 <= i < |r| ==> !IsJsSpace(r[i])
    ensures Alnums(r) == Alnums(s)
  {
    if |s| == 0 then ""
    else if IsJsSpace(s[0]) then
      if |s| > 1 && IsJsSpace(s[1]) then CollapseSpaces(s[1..]) else "+" + CollapseSpaces(s[1..])
    else [s[0]] + CollapseSpaces(s[1..])
  }

  /** `s.replace(/[^a-zA-Z0-9+]/g, '')` */
  function KeepAllowed(s: string): (r: string)
    ensures |r| <= |s|
    ensures AllAllowed(r)
    ensures Alnums(r) == Alnums(s)
  {
    if |s| == 0 then ""
    else
      var rest := KeepAllowed(s[1..]);
      if IsAllowed(s[0]) then
        assert ([s[0]] + rest)[1..] == rest;
        [s[0]] + rest
      else rest
  }

  /** The sanitised search term of line 489. */
  function Sanitize(query: string): (term: string)
    ensures AllAllowed(term)
    ensures |term| <= |query|
    ensures Alnums(term) == Alnums(query)
  {
    KeepAllowed(CollapseSpaces(query))
  }

  /** A string of allowed characters is left as it is by both steps. */
  lemma {:induction false} AllowedIsFixpoint(s: string)
    requires AllAllowed(s)
    ensures CollapseSpaces(s) == s
    ensures KeepAllowed(s) == s
  {
    if |s| > 0 {
      assert !IsJsSpace(s[0]);
      AllowedIsFixpoint(s[1..]);
    }
  }

  /** Sanitising is idempotent. */
  lemma SanitizeIdempotent(query: string)
    ensures Sanitize(Sanitize(query)) == Sanitize(query)
  {
    AllowedIsFixpoint(Sanitize(query));
  }

  /** A query is its own sanitised term exactly when it holds only allowed characters. */
  lemma SanitizeFixpoints(query: string)
    ensures Sanitize(query) == query <==> AllAllowed(query)
  {
    if AllAllowed(query) {
      AllowedIsFixpoint(query);
    }
  }

  /** What the search route does with its query. */
  datatype SearchDecision = TooShort | Search(route: string)

  /** `!query || query.length < 2` answers 400; otherwise the upstream route is built from
      the sanitised term, with no second check of its length. */
  function Decide(query: string): (d: SearchDecision)
    ensures d.TooShort? <==> Utf16Length(query) < 2
    ensures d.Search? ==> d.route == "/google/news/" + Sanitize(query)
  {
    if |query| == 0 || Utf16Length(query) < 2 then TooShort
    else Search("/google/news/" + Sanitize(query))
  }

  /** Without whitespace the first step changes nothing. */
  lemma {:induction false} CollapseWithoutSpaces(s: string)
    requires forall i :: 0 <= i < |s| ==> !IsJsSpace(s[i])
    ensures CollapseSpaces(s) == s
  {
    if |s| > 0 {
      CollapseWithoutSpaces(s[1..]);
    }
  }

  /** A query of characters that are neither allowed nor whitespace sanitises to nothing. */
  lemma {:induction false} OnlyPunctuationVanishes(query: string)
    requires forall i :: 0 <= i < |query| ==> !IsAllowed(query[i]) && !IsJsSpace(query[i])
    ensures Sanitize(query) == ""
  {
    CollapseWithoutSpaces(query);
    if |query| > 0 {
      OnlyPunctuationVanishes(query[1..]);
      CollapseWithoutSpaces(query[1..]);
    }
  }

  /** A query of two punctuation marks passes the length check yet searches for nothing. */
  lemma PunctuationSearchesForNothing()
    ensures Decide("!!") == Search("/google/news/")
  {
    var q := "!!";
    assert !IsAllowed(q[0]) && !IsJsSpace(q[0]) && !IsAllowed(q[1]) && !IsJsSpace(q[1]);
    OnlyPunctuationVanishes(q);
    assert Utf16Length(q) == 2;
  }

  /** A single character outside the Basic Multilingual Plane has JavaScript length 2, so it
      passes the length check; it is then deleted. */
  lemma AstralCharacterPassesLengthCheck()
    ensures Decide("\U{1F4C8}") == Search("/google/news/")
  {
    assert Utf16Length("\U{1F4C8}") == 2;
    OnlyPunctuationVanishes("\U{1F4C8}");
  }

  /** A run of whitespace, followed by the end or by a non-space, becomes one '+'. */
  lemma {:induction false} SpaceRunBecomesPlus(w: string, s: string)
    requires |w| > 0 && forall i :: 0 <= i < |w| ==> IsJsSpace(w[i])
    requires |s| == 0 || !IsJsSpace(s[0])
    ensures CollapseSpaces(w + s) == "+" + CollapseSpaces(s)
  {
    var t := w + s;
    assert t[0] == w[0];
    assert t[1..] == w[1..] + s;
    if |w| > 1 {
      assert t[1] == w[1];
      SpaceRunBecomesPlus(w[1..], s);
    }
  }

  /** Two words separated by mixed whitespace are joined by a single '+'. */
  lemma SpacesJoinWords()
    ensures Sanitize("a \t b") == "a+b"
  {
    var q := "a \t b";
    assert q[1..] == " \t " + "b";
    SpaceRunBecomesPlus(" \t ", "b");
    assert CollapseSpaces("b") == "b";
    assert CollapseSpaces(q) == "a+b";
    AllowedIsFixpoint("a+b");
  }
}
