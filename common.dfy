/**
 * The string helpers of lib/common.js: removeEOL, unescapeQuote and ucFirst.
 * Strings are sequences of characters; a value the source may find undefined
 * (a missing field of a Tumblr post) is a MaybeString.
 */
module Common {

  /** A JavaScript value that is either a string or `undefined`. */
  datatype MaybeString = Absent | Present(value: string)

  /** JavaScript truthiness of such a value: `undefined` and `""` are falsy. */
  predicate Truthy(m: MaybeString) {
    m.Present? && m.value != ""
  }

  const CR: char := '\r'
  const LF: char := '\n'
  const Backslash: char := '\\'

  predicate IsEol(c: char) {
    c == CR || c == LF
  }

  predicate NoEol(s: string) {
    forall i :: 0 <= i < |s| ==> !IsEol(s[i])
  }

  // ---------------------------------------------------------------- removeEOL

  /**
   * One pass of `replace(/\r?\n|\r/g, "")`: at each position the regex tries
   * CR LF first, then LF, then CR, and deletes what it matched; any other
   * character is kept and the scan moves on by one.
   */
  function StripEolMatches(s: string): string
    decreases |s|
  {
    if s == [] then []
    else if |s| >= 2 && s[0] == CR && s[1] == LF then StripEolMatches(s[2..])
    else if s[0] == LF || s[0] == CR then StripEolMatches(s[1..])
    else [s[0]] + StripEolMatches(s[1..])
  }

  /** The text made of `f(c)` for each character `c` of `s`, in order. */
  function FlatMap(s: string, f: char -> string): string {
    if s == [] then [] else f(s[0]) + FlatMap(s[1..], f)
  }

  /** A per-character rewrite works piecewise, so it keeps the order of the pieces. */
  lemma {:induction false} FlatMapConcat(a: string, b: string, f: char -> string)
    ensures FlatMap(a + b, f) == FlatMap(a, f) + FlatMap(b, f)
  {
    if a != [] {
      FlatMapConcat(a[1..], b, f);
      assert (a + b)[0] == a[0];
      assert (a + b)[1..] == a[1..] + b;
      calc {
        FlatMap(a + b, f);
        f(a[0]) + FlatMap(a[1..] + b, f);
        f(a[0]) + (FlatMap(a[1..], f) + FlatMap(b, f));
        (f(a[0]) + FlatMap(a[1..], f)) + FlatMap(b, f);
      }
    } else {
      assert a + b == b;
    }
  }

  /** A rewrite that keeps every character of `s` leaves `s` alone. */
  lemma {:induction false} FlatMapUnchanged(s: string, f: char -> string)
    requires forall i :: 0 <= i < |s| ==> f(s[i]) == [s[i]]
    ensures FlatMap(s, f) == s
  {
    if s != [] {
      FlatMapUnchanged(s[1..], f);
      assert [s[0]] + s[1..] == s;
    }
  }

  function KeepNonEol(c: char): string {
    if IsEol(c) then [] else [c]
  }

  /** Reference definition: the characters of `s` other than CR and LF, in order. */
  function WithoutEol(s: string): string {
    FlatMap(s, KeepNonEol)
  }

  /** removeEOL: `""` for a falsy argument, otherwise the regex deletion above. */
  function RemoveEOL(m: MaybeString): (r: string)
    ensures !Truthy(m) ==> r == ""
    ensures Truthy(m) ==> r == WithoutEol(m.value)
    ensures NoEol(r)
  {
    if !Truthy(m) then ""
    else
      StripEolIsWithoutEol(m.value);
      WithoutEolHasNoEol(m.value);
      StripEolMatches(m.value)
  }

  lemma {:induction false} StripEolIsWithoutEol(s: string)
    ensures StripEolMatches(s) == WithoutEol(s)
    decreases |s|
  {
    if s == [] {
    } else if |s| >= 2 && s[0] == CR && s[1] == LF {
      StripEolIsWithoutEol(s[2..]);
      assert s[1..][1..] == s[2..];
      assert WithoutEol(s[1..]) == WithoutEol(s[2..]);
    } else {
      StripEolIsWithoutEol(s[1..]);
    }
  }

  lemma {:induction false} WithoutEolHasNoEol(s: string)
    ensures NoEol(WithoutEol(s))
  {
    if s != [] {
      WithoutEolHasNoEol(s[1..]);
    }
  }

  /** Nothing is deleted from a string that holds no CR or LF. */
  lemma WithoutEolKeepsEolFree(s: string)
    requires NoEol(s)
    ensures WithoutEol(s) == s
  {
    FlatMapUnchanged(s, KeepNonEol);
  }

  /** Every character other than CR and LF survives as often as it occurred; CR and LF vanish. */
  lemma {:induction false} WithoutEolCounts(s: string)
    ensures forall c :: multiset(WithoutEol(s))[c] == if IsEol(c) then 0 else multiset(s)[c]
  {
    if s != [] {
      WithoutEolCounts(s[1..]);
      assert s == [s[0]] + s[1..];
      assert multiset(s) == multiset([s[0]]) + multiset(s[1..]);
    }
  }

  lemma {:induction false} WithoutEolNotLonger(s: string)
    ensures |WithoutEol(s)| <= |s|
  {
    if s != [] {
      WithoutEolNotLonger(s[1..]);
    }
  }

  lemma RemoveEOLNotLonger(m: MaybeString)
    requires m.Present?
    ensures |RemoveEOL(m)| <= |m.value|
  {
    if Truthy(m) {
      WithoutEolNotLonger(m.value);
    }
  }

  lemma RemoveEOLIdempotent(m: MaybeString)
    ensures RemoveEOL(Present(RemoveEOL(m))) == RemoveEOL(m)
  {
    var r := RemoveEOL(m);
    if r != "" {
      WithoutEolKeepsEolFree(r);
    }
  }

  // ------------------------------------------------------------ unescapeQuote

  /**
   * `s.replace(/ab/g, rep)` for a two-character pattern `ab`: the leftmost
   * match is replaced first and matches never overlap.
   */
  function ReplacePair(s: string, a: char, b: char, rep: string): string
    decreases |s|
  {
    if |s| >= 2 && s[0] == a && s[1] == b then rep + ReplacePair(s[2..], a, b, rep)
    else if s == [] then []
    else [s[0]] + ReplacePair(s[1..], a, b, rep)
  }

  /** No character `x` is immediately followed by a character `y` in `s`. */
  predicate PairFree(s: string, x: char, y: char) {
    forall i :: 0 <= i < |s| - 1 ==> !(s[i] == x && s[i + 1] == y)
  }

  /**
   * unescapeQuote: `""` for a falsy argument; otherwise every backslash-apostrophe
   * becomes the entity `&apos;` and then every backslash-double-quote becomes a
   * double quote.
   */
  function UnescapeQuote(m: MaybeString): (r: string)
    ensures !Truthy(m) ==> r == ""
    ensures PairFree(r, Backslash, '\'')
    ensures Truthy(m) && Backslash !in m.value ==> r == m.value
  {
    if !Truthy(m) then ""
    else
      var s := m.value;
      var once := ReplacePair(s, Backslash, '\'', "&apos;");
      ReplacePairPairFree(s, Backslash, '\'', "&apos;", Backslash, '\'');
      ReplacePairPairFree(once, Backslash, '"', "\"", Backslash, '\'');
      if Backslash !in s then
        ReplacePairWithoutBackslash(s, '\'', "&apos;");
        ReplacePairWithoutBackslash(s, '"', "\"");
        ReplacePair(once, Backslash, '"', "\"")
      else
        ReplacePair(once, Backslash, '"', "\"")
  }

  lemma PairFreeConcat(u: string, v: string, x: char, y: char)
    requires PairFree(u, x, y) && PairFree(v, x, y)
    requires u != [] && v != [] ==> !(u[|u| - 1] == x && v[0] == y)
    ensures PairFree(u + v, x, y)
  {
    forall i | 0 <= i < |u + v| - 1
      ensures !((u + v)[i] == x && (u + v)[i + 1] == y)
    {
      if i + 1 < |u| {
        assert (u + v)[i] == u[i] && (u + v)[i + 1] == u[i + 1];
      } else if i >= |u| {
        assert (u + v)[i] == v[i - |u|] && (u + v)[i + 1] == v[i - |u| + 1];
      }
    }
  }

  /** The first character of a replacement result. */
  lemma ReplacePairHead(s: string, a: char, b: char, rep: string)
    requires s != [] && rep != []
    ensures ReplacePair(s, a, b, rep) != []
    ensures ReplacePair(s, a, b, rep)[0] ==
            if |s| >= 2 && s[0] == a && s[1] == b then rep[0] else s[0]
  {
  }

  /**
   * A replacement whose text cannot take part in an `xy` pair leaves no such
   * pair behind: either it removes them all (`xy` is the pattern) or there
   * were none to begin with.
   */
  lemma {:induction false} ReplacePairPairFree(s: string, a: char, b: char, rep: string, x: char, y: char)
    requires (x == a && y == b) || PairFree(s, x, y)
    requires rep != [] && PairFree(rep, x, y)
    requires rep[|rep| - 1] != x && rep[0] != y
    ensures PairFree(ReplacePair(s, a, b, rep), x, y)
    decreases |s|
  {
    if |s| >= 2 && s[0] == a && s[1] == b {
      ReplacePairPairFree(s[2..], a, b, rep, x, y);
      var tail := ReplacePair(s[2..], a, b, rep);
      PairFreeConcat(rep, tail, x, y);
    } else if s != [] {
      ReplacePairPairFree(s[1..], a, b, rep, x, y);
      var tail := ReplacePair(s[1..], a, b, rep);
      if tail != [] {
        assert s[1..] != [];
        ReplacePairHead(s[1..], a, b, rep);
        assert s[1..][0] == s[1];
        assert !(s[0] == x && tail[0] == y);
      }
      PairFreeConcat([s[0]], tail, x, y);
    }
  }

  /** A pattern that starts with a backslash cannot match a string without one. */
  lemma {:induction false} ReplacePairWithoutBackslash(s: string, b: char, rep: string)
    requires Backslash !in s
    ensures ReplacePair(s, Backslash, b, rep) == s
    decreases |s|
  {
    if s != [] {
      assert Backslash !in s[1..];
      ReplacePairWithoutBackslash(s[1..], b, rep);
      assert [s[0]] + s[1..] == s;
    }
  }

  function EscapeQuote(c: char): string {
    if c == '\'' || c == '"' then [Backslash, c] else [c]
  }

  function EscapeDoubleQuote(c: char): string {
    if c == '"' then [Backslash, c] else [c]
  }

  function ApostropheEntity(c: char): string {
    if c == '\'' then "&apos;" else [c]
  }

  /** Puts a backslash in front of every apostrophe and every double quote. */
  function EscapeQuotes(s: string): string {
    FlatMap(s, EscapeQuote)
  }

  /** Puts a backslash in front of every double quote only. */
  function EscapeDoubleQuotes(s: string): string {
    FlatMap(s, EscapeDoubleQuote)
  }

  /** Writes every apostrophe as the entity `&apos;`. */
  function ApostropheAsEntity(s: string): string {
    FlatMap(s, ApostropheEntity)
  }

  lemma {:induction false} ApostropheAsEntityNoBackslash(s: string)
    requires Backslash !in s
    ensures Backslash !in ApostropheAsEntity(s)
  {
    if s != [] {
      assert Backslash !in s[1..];
      ApostropheAsEntityNoBackslash(s[1..]);
    }
  }

  /** The first pass on an escaped apostrophe followed by `rest`. */
  lemma FirstPassApostrophe(rest: string)
    ensures ReplacePair([Backslash, '\''] + rest, Backslash, '\'', "&apos;")
         == "&apos;" + ReplacePair(rest, Backslash, '\'', "&apos;")
  {
    assert ([Backslash, '\''] + rest)[2..] == rest;
  }

  /** The first pass on an escaped double quote followed by `rest`. */
  lemma FirstPassDoubleQuote(rest: string)
    ensures ReplacePair([Backslash, '"'] + rest, Backslash, '\'', "&apos;")
         == [Backslash, '"'] + ReplacePair(rest, Backslash, '\'', "&apos;")
  {
    var t := ['"'] + rest;
    assert ([Backslash, '"'] + rest)[1..] == t;
    assert t[1..] == rest;
    assert ReplacePair(t, Backslash, '\'', "&apos;") == ['"'] + ReplacePair(rest, Backslash, '\'', "&apos;");
  }

  /** The first pass on any character but a backslash followed by `rest`. */
  lemma FirstPassOther(c: char, rest: string)
    requires c != Backslash
    ensures ReplacePair([c] + rest, Backslash, '\'', "&apos;")
         == [c] + ReplacePair(rest, Backslash, '\'', "&apos;")
  {
    assert ([c] + rest)[1..] == rest;
  }

  /** The entity holds no double quote, so escaping double quotes leaves it alone. */
  lemma EntityKeepsDoubleQuotes()
    ensures EscapeDoubleQuotes("&apos;") == "&apos;"
  {
    FlatMapUnchanged("&apos;", EscapeDoubleQuote);
  }

  /** The first pass turns each escaped apostrophe into the entity and keeps the escaped double quotes. */
  lemma {:induction false} FirstPassOnEscaped(s: string)
    requires Backslash !in s
    ensures ReplacePair(EscapeQuotes(s), Backslash, '\'', "&apos;")
         == EscapeDoubleQuotes(ApostropheAsEntity(s))
  {
    if s != [] {
      var rest := EscapeQuotes(s[1..]);
      var tail := ApostropheAsEntity(s[1..]);
      assert EscapeQuotes(s) == EscapeQuote(s[0]) + rest;
      assert ApostropheAsEntity(s) == ApostropheEntity(s[0]) + tail;
      assert Backslash !in s[1..];
      FirstPassOnEscaped(s[1..]);
      FlatMapConcat(ApostropheEntity(s[0]), tail, EscapeDoubleQuote);
      if s[0] == '\'' {
        FirstPassApostrophe(rest);
        EntityKeepsDoubleQuotes();
      } else if s[0] == '"' {
        FirstPassDoubleQuote(rest);
      } else {
        FirstPassOther(s[0], rest);
      }
    }
  }

  /** The second pass undoes EscapeDoubleQuotes on a string without backslashes. */
  lemma {:induction false} SecondPassOnEscaped(t: string)
    requires Backslash !in t
    ensures ReplacePair(EscapeDoubleQuotes(t), Backslash, '"', "\"") == t
  {
    if t != [] {
      var rest := EscapeDoubleQuotes(t[1..]);
      assert Backslash !in t[1..];
      SecondPassOnEscaped(t[1..]);
      if t[0] == '"' {
        assert EscapeDoubleQuotes(t) == [Backslash, '"'] + rest;
        assert ([Backslash, '"'] + rest)[2..] == rest;
      } else {
        assert EscapeDoubleQuotes(t) == [t[0]] + rest;
        assert ([t[0]] + rest)[1..] == rest;
      }
      assert t == [t[0]] + t[1..];
    }
  }

  /**
   * Round trip: escaping the quotes of a backslash-free text and unescaping the
   * result gives the text back, except that each apostrophe comes back as `&apos;`.
   */
  lemma UnescapeQuoteUndoesEscapeQuotes(s: string)
    requires Backslash !in s
    ensures UnescapeQuote(Present(EscapeQuotes(s))) == ApostropheAsEntity(s)
  {
    if s != [] {
      assert EscapeQuotes(s) != [];
      FirstPassOnEscaped(s);
      ApostropheAsEntityNoBackslash(s);
      SecondPassOnEscaped(ApostropheAsEntity(s));
    }
  }

  /**
   * unescapeQuote is not idempotent: on `\\"` the first call turns the escaped
   * double quote into a plain one and leaves `\"`, which a second call unescapes again.
   */
  lemma UnescapeQuoteNotIdempotent()
    ensures var s := [Backslash, Backslash, '"'];
            UnescapeQuote(Present(s)) == [Backslash, '"'] &&
            UnescapeQuote(Present(UnescapeQuote(Present(s)))) == ['"']
  {
    var s := [Backslash, Backslash, '"'];
    assert ReplacePair(s, Backslash, '\'', "&apos;") == s by {
      assert ReplacePair(s[2..], Backslash, '\'', "&apos;") == s[2..];
      assert ReplacePair(s[1..], Backslash, '\'', "&apos;") == s[1..];
    }
    assert ReplacePair(s, Backslash, '"', "\"") == [Backslash, '"'] by {
      assert s[1..][2..] == [];
      assert ReplacePair(s[1..], Backslash, '"', "\"") == ['"'];
    }
    var t := [Backslash, '"'];
    assert ReplacePair(t, Backslash, '\'', "&apos;") == t by {
      assert ReplacePair(t[1..], Backslash, '\'', "&apos;") == t[1..];
    }
    assert ReplacePair(t, Backslash, '"', "\"") == ['"'] by {
      assert t[2..] == [];
    }
  }

  lemma NoEolConcat(a: string, b: string)
    requires NoEol(a) && NoEol(b)
    ensures NoEol(a + b)
  {
    forall i | 0 <= i < |a + b| ensures !IsEol((a + b)[i]) {
      if i < |a| { assert (a + b)[i] == a[i]; } else { assert (a + b)[i] == b[i - |a|]; }
    }
  }

  /** No backslash, quote, CR or LF. */
  predicate Plain(s: string) {
    Backslash !in s && '\'' !in s && '"' !in s && NoEol(s)
  }

  /** Escaping, or writing as an entity, the one apostrophe between two plain texts. */
  lemma RewriteOneApostrophe(x: string, y: string, f: char -> string)
    requires Plain(x) && Plain(y)
    requires forall c :: c != '\'' && c != '"' ==> f(c) == [c]
    ensures FlatMap(x + ['\''] + y, f) == x + f('\'') + y
  {
    FlatMapUnchanged(x, f);
    FlatMapUnchanged(y, f);
    FlatMapConcat(x, ['\''], f);
    FlatMapConcat(x + ['\''], y, f);
    assert FlatMap(['\''], f) == f('\'') + FlatMap([], f);
  }

  /**
   * Cleaning a caption (`removeEOL(unescapeQuote(...))`) turns an escaped
   * apostrophe between two plain texts into the entity `&apos;`.
   */
  lemma EscapedApostropheBecomesEntity(x: string, y: string)
    requires Plain(x) && Plain(y)
    ensures RemoveEOL(Present(UnescapeQuote(Present(x + [Backslash, '\''] + y)))) == x + "&apos;" + y
  {
    UnescapeOneApostrophe(x, y);
    var r := x + "&apos;" + y;
    assert NoEol("&apos;");
    NoEolConcat(x, "&apos;");
    NoEolConcat(x + "&apos;", y);
    WithoutEolKeepsEolFree(r);
  }

  /** unescapeQuote turns the one escaped apostrophe between two plain texts into `&apos;`. */
  lemma UnescapeOneApostrophe(x: string, y: string)
    requires Plain(x) && Plain(y)
    ensures UnescapeQuote(Present(x + [Backslash, '\''] + y)) == x + "&apos;" + y
  {
    var s := x + ['\''] + y;
    RewriteOneApostrophe(x, y, EscapeQuote);
    RewriteOneApostrophe(x, y, ApostropheEntity);
    assert Backslash !in s by {
      assert forall i :: 0 <= i < |s| ==> s[i] in x || s[i] == '\'' || s[i] in y;
    }
    UnescapeQuoteUndoesEscapeQuotes(s);
  }

  // ------------------------------------------------------------------ ucFirst

  /** String.prototype.toUpperCase on one character, restricted to ASCII letters. */
  function ToUpperAscii(c: char): char {
    if 'a' <= c <= 'z' then (c as int - 32) as char else c
  }

  /** ucFirst: `s.charAt(0).toUpperCase() + s.slice(1)`; `charAt(0)` of `""` is `""`. */
  function UcFirst(s: string): (r: string)
    ensures |r| == |s|
    ensures s != [] ==> r[0] == ToUpperAscii(s[0]) && r[1..] == s[1..]
    ensures s != [] ==> !('a' <= r[0] <= 'z')
  {
    if s == [] then [] else [ToUpperAscii(s[0])] + s[1..]
  }

  lemma UcFirstIdempotent(s: string)
    ensures UcFirst(UcFirst(s)) == UcFirst(s)
  {
  }
}
