/**
 * The environment-key codec of lib/config.js: `toEnvKey` turns a dotted
 * configuration key into an environment-variable name and `fromEnvKey`
 * turns a name back into a key.  Both use JavaScript's `String.replace`
 * with a string pattern, which replaces only the FIRST occurrence.
 * Case mapping is restricted to ASCII letters.
 */
module EnvKey {
  import opened Wrappers

  // ---------------------------------------------------------------------
  // ASCII case mapping (`toUpperCase` / `toLowerCase`)
  // ---------------------------------------------------------------------

  predicate IsUpperLetter(c: char) { 'A' <= c <= 'Z' }
  predicate IsLowerLetter(c: char) { 'a' <= c <= 'z' }

  function UpperChar(c: char): char {
    if IsLowerLetter(c) then (c as int - 32) as char else c
  }

  function LowerChar(c: char): char {
    if IsUpperLetter(c) then (c as int + 32) as char else c
  }

  /** `s.toUpperCase()` over ASCII letters; other characters are kept. */
  function Upper(s: string): (r: string)
    ensures |r| == |s|
    ensures forall i :: 0 <= i < |s| ==> r[i] == UpperChar(s[i])
  {
    seq(|s|, i requires 0 <= i < |s| => UpperChar(s[i]))
  }

  /** `s.toLowerCase()` over ASCII letters; other characters are kept. */
  function Lower(s: string): (r: string)
    ensures |r| == |s|
    ensures forall i :: 0 <= i < |s| ==> r[i] == LowerChar(s[i])
  {
    seq(|s|, i requires 0 <= i < |s| => LowerChar(s[i]))
  }

  lemma LowerAppend(a: string, b: string)
    ensures Lower(a + b) == Lower(a) + Lower(b)
  {
    assert forall i :: 0 <= i < |a + b| ==> Lower(a + b)[i] == (Lower(a) + Lower(b))[i];
  }

  /**
   * What upper-casing promises: a lower-case letter becomes the upper-case
   * letter it stands for, every other character is kept, and no lower-case
   * letter is left.
   */
  lemma UpperMapsLetters(s: string)
    ensures forall i :: 0 <= i < |s| && IsLowerLetter(s[i]) ==>
              IsUpperLetter(Upper(s)[i]) && LowerChar(Upper(s)[i]) == s[i]
    ensures forall i :: 0 <= i < |s| && !IsLowerLetter(s[i]) ==> Upper(s)[i] == s[i]
    ensures forall i :: 0 <= i < |s| ==> !IsLowerLetter(Upper(s)[i])
  {
  }

  /** What lower-casing promises, symmetrically. */
  lemma LowerMapsLetters(s: string)
    ensures forall i :: 0 <= i < |s| && IsUpperLetter(s[i]) ==>
              IsLowerLetter(Lower(s)[i]) && UpperChar(Lower(s)[i]) == s[i]
    ensures forall i :: 0 <= i < |s| && !IsUpperLetter(s[i]) ==> Lower(s)[i] == s[i]
    ensures forall i :: 0 <= i < |s| ==> !IsUpperLetter(Lower(s)[i])
  {
  }

  /** Upper-casing twice is upper-casing once. */
  lemma UpperIdempotent(s: string)
    ensures Upper(Upper(s)) == Upper(s)
  {
  }

  /** Lower-casing twice is lower-casing once. */
  lemma LowerIdempotent(s: string)
    ensures Lower(Lower(s)) == Lower(s)
  {
  }

  /** Lower-casing forgets a previous upper-casing. */
  lemma LowerOfUpper(s: string)
    ensures Lower(Upper(s)) == Lower(s)
  {
  }

  /** Upper-casing forgets a previous lower-casing. */
  lemma UpperOfLower(s: string)
    ensures Upper(Lower(s)) == Upper(s)
  {
  }

  // ---------------------------------------------------------------------
  // First-occurrence search and replacement (`String.prototype.replace`
  // with a string pattern)
  // ---------------------------------------------------------------------

  /** `pat` occurs in `s` starting at index `i`. */
  predicate OccursAt(s: string, pat: string, i: int) {
    0 <= i && i + |pat| <= |s| && s[i..i + |pat|] == pat
  }

  function IndexFrom(s: string, pat: string, from: nat): (r: Option<nat>)
    requires from <= |s|
    decreases |s| - from
    ensures r.Some? ==> from <= r.value && OccursAt(s, pat, r.value)
    ensures r.Some? ==> forall j :: from <= j < r.value ==> !OccursAt(s, pat, j)
    ensures r.None? ==> forall j :: from <= j ==> !OccursAt(s, pat, j)
  {
    if OccursAt(s, pat, from) then Some(from)
    else if from + |pat| >= |s| then None
    else IndexFrom(s, pat, from + 1)
  }

  /**
   * `s.indexOf(pat)`: the least index at which `pat` occurs, or `None` when
   * it occurs nowhere.  The empty pattern occurs at 0.
   */
  function IndexOf(s: string, pat: string): (r: Option<nat>)
    ensures r.Some? ==> OccursAt(s, pat, r.value)
    ensures r.Some? ==> forall j :: 0 <= j < r.value ==> !OccursAt(s, pat, j)
    ensures r.None? <==> forall j :: !OccursAt(s, pat, j)
  {
    IndexFrom(s, pat, 0)
  }

  /** `s.replace(pat, rep)`: only the first occurrence of `pat` is replaced. */
  function ReplaceFirst(s: string, pat: string, rep: string): string {
    match IndexOf(s, pat)
    case None => s
    case Some(i) => s[..i] + rep + s[i + |pat|..]
  }

  /** When `pat` does not occur, the string is returned unchanged. */
  lemma ReplaceFirstAbsent(s: string, c: char, rep: string)
    requires c !in s
    ensures ReplaceFirst(s, [c], rep) == s
  {
    assert forall j :: OccursAt(s, [c], j) ==> s[j] == c;
  }

  /** A single-character pattern is replaced at its first occurrence only. */
  lemma ReplaceFirstChar(a: string, c: char, b: string, rep: string)
    requires c !in a
    ensures ReplaceFirst(a + [c] + b, [c], rep) == a + rep + b
  {
    var s := a + [c] + b;
    assert OccursAt(s, [c], |a|);
    assert forall j :: 0 <= j < |a| ==> s[j] == a[j];
    assert forall j :: OccursAt(s, [c], j) ==> s[j] == c;
    var i := IndexOf(s, [c]).value;
    assert i == |a|;
    assert s[..i] == a && s[i + 1..] == b;
  }

  /** A pattern at the very start of the string is the one replaced. */
  lemma ReplaceFirstAtStart(pat: string, b: string, rep: string)
    ensures ReplaceFirst(pat + b, pat, rep) == rep + b
  {
    var s := pat + b;
    assert OccursAt(s, pat, 0);
    assert s[|pat|..] == b;
  }

  // ---------------------------------------------------------------------
  // toEnvKey / fromEnvKey
  // ---------------------------------------------------------------------

  /** `toEnvKey(key, prefix, replacer)`, lib/config.js:175-180. */
  function ToEnvKey(key: string, prefix: string, replacer: string): string {
    Upper(prefix) + replacer + ReplaceFirst(Upper(key), ".", replacer)
  }

  /** `fromEnvKey(env, prefix, replacer)`, lib/config.js:189-195. */
  function FromEnvKey(env: string, prefix: string, replacer: string): string {
    ReplaceFirst(ReplaceFirst(Lower(env), Lower(prefix) + replacer, ""), replacer, ".")
  }

  /** A key without a dot becomes the upper-cased prefix, the replacer and the upper-cased key. */
  lemma ToEnvKeyNoDot(key: string, prefix: string, replacer: string)
    requires '.' !in key
    ensures ToEnvKey(key, prefix, replacer) == Upper(prefix) + replacer + Upper(key)
  {
    assert forall i :: 0 <= i < |key| ==> Upper(key)[i] != '.';
    ReplaceFirstAbsent(Upper(key), '.', replacer);
  }

  /**
   * Only the first dot of a key is replaced: the segments after it keep
   * their dots (`a.b.c` becomes `P_A_B.C`).
   */
  lemma ToEnvKeyFirstDot(head: string, tail: string, prefix: string, replacer: string)
    requires '.' !in head
    ensures ToEnvKey(head + "." + tail, prefix, replacer)
         == Upper(prefix) + replacer + Upper(head) + replacer + Upper(tail)
  {
    var uh, ut := Upper(head), Upper(tail);
    UpperAround(head, '.', tail);
    assert forall i :: 0 <= i < |head| ==> uh[i] != '.';
    ReplaceFirstChar(uh, '.', ut, replacer);
  }

  /** Upper-casing keeps a separator that is not a letter in place. */
  lemma UpperAround(a: string, c: char, b: string)
    requires !IsLowerLetter(c)
    ensures Upper(a + [c] + b) == Upper(a) + [c] + Upper(b)
  {
    var u, v := Upper(a + [c] + b), Upper(a) + [c] + Upper(b);
    assert forall i :: 0 <= i < |u| ==> u[i] == v[i];
  }

  /** Lower-casing keeps a separator that is not a letter in place. */
  lemma LowerAround(a: string, c: char, b: string)
    requires !IsUpperLetter(c)
    ensures Lower(a + [c] + b) == Lower(a) + [c] + Lower(b)
  {
    var u, v := Lower(a + [c] + b), Lower(a) + [c] + Lower(b);
    assert forall i :: 0 <= i < |u| ==> u[i] == v[i];
  }

  /**
   * A name whose lower-case form is the lower-case prefix, the replacer and a
   * rest loses that leading part, and then the first replacer of the rest
   * becomes a dot.
   */
  lemma {:induction false} FromEnvKeyShape(env: string, prefix: string, replacer: string, head: string, tail: string)
    requires |replacer| == 1 && replacer[0] !in head
    requires Lower(env) == Lower(prefix) + replacer + head + replacer + tail
    ensures FromEnvKey(env, prefix, replacer) == head + "." + tail
  {
    assert replacer == [replacer[0]];
    var lp := Lower(prefix) + replacer;
    assert Lower(env) == lp + (head + replacer + tail);
    ReplaceFirstAtStart(lp, head + replacer + tail, "");
    assert "" + (head + replacer + tail) == head + [replacer[0]] + tail;
    ReplaceFirstChar(head, replacer[0], tail, ".");
  }

  /** The same, for a rest that holds no replacer: it is returned as it is. */
  lemma {:induction false} FromEnvKeyNoReplacer(env: string, prefix: string, replacer: string, rest: string)
    requires |replacer| == 1 && replacer[0] !in rest
    requires Lower(env) == Lower(prefix) + replacer + rest
    ensures FromEnvKey(env, prefix, replacer) == rest
  {
    ReplaceFirstAtStart(Lower(prefix) + replacer, rest, "");
    assert "" + rest == rest;
    ReplaceFirstAbsent(rest, replacer[0], ".");
  }

  lemma CharNotInLower(c: char, s: string)
    requires c == LowerChar(c) && c == UpperChar(c) && c !in s
    ensures c !in Lower(s) && c !in Upper(s)
  {
    assert forall i :: 0 <= i < |s| ==> Lower(s)[i] != c && Upper(s)[i] != c;
  }

  /** A string that holds `c` is split around its first `c`. */
  lemma FirstSplit(s: string, c: char) returns (head: string, tail: string)
    requires c in s
    ensures s == head + [c] + tail && c !in head
  {
    assert forall j :: 0 <= j < |s| && s[j] == c ==> OccursAt(s, [c], j);
    var i := IndexOf(s, [c]).value;
    assert forall j :: 0 <= j < i ==> s[j..j + 1] == [s[j]];
    head, tail := s[..i], s[i + 1..];
    assert s[i] == c;
  }

  /**
   * Round trip key -> name -> key.  It holds for a key with any number of
   * dots (both directions replace only the first separator) and for any
   * prefix, as long as the replacer is one character that is not an
   * upper-case letter, the key has no upper-case letter and the key does not
   * contain the replacer.
   */
  lemma {:induction false} EnvKeyRoundTrip(key: string, prefix: string, replacer: string)
    requires |replacer| == 1 && !IsUpperLetter(replacer[0])
    requires Lower(key) == key
    requires replacer[0] !in key
    ensures FromEnvKey(ToEnvKey(key, prefix, replacer), prefix, replacer) == key
  {
    if '.' in key {
      var head, tail := FirstSplit(key, '.');
      LowerAround(head, '.', tail);
      assert Lower(head) == head && Lower(tail) == tail by {
        assert Lower(key)[..|head|] == Lower(head) && key[..|head|] == head;
        assert Lower(key)[|head| + 1..] == Lower(tail) && key[|head| + 1..] == tail;
      }
      RoundTripDotted(head, tail, prefix, replacer);
    } else {
      var r := replacer[0];
      assert replacer == [r];
      ToEnvKeyNoDot(key, prefix, replacer);
      var env := Upper(prefix) + [r] + Upper(key);
      LowerAround(Upper(prefix), r, Upper(key));
      LowerOfUpper(prefix);
      LowerOfUpper(key);
      assert Lower(env) == Lower(prefix) + replacer + key;
      FromEnvKeyNoReplacer(env, prefix, replacer, key);
    }
  }

  lemma {:induction false} RoundTripDotted(head: string, tail: string, prefix: string, replacer: string)
    requires |replacer| == 1 && !IsUpperLetter(replacer[0])
    requires Lower(head) == head && Lower(tail) == tail
    requires '.' !in head && replacer[0] !in head
    ensures FromEnvKey(ToEnvKey(head + "." + tail, prefix, replacer), prefix, replacer) == head + "." + tail
  {
    var r := replacer[0];
    assert replacer == [r];
    ToEnvKeyFirstDot(head, tail, prefix, replacer);
    var up, uh, ut := Upper(prefix), Upper(head), Upper(tail);
    var env := up + [r] + (uh + [r] + ut);
    assert ToEnvKey(head + "." + tail, prefix, replacer) == env;
    LowerAround(up, r, uh + [r] + ut);
    LowerAround(uh, r, ut);
    LowerOfUpper(prefix);
    LowerOfUpper(head);
    LowerOfUpper(tail);
    assert Lower(env) == Lower(prefix) + replacer + head + replacer + tail;
    FromEnvKeyShape(env, prefix, replacer, head, tail);
  }

  /**
   * Round trip name -> key -> name, for a name made of the upper-cased
   * prefix, the replacer and a rest without lower-case letters or dots; the
   * replacer is one character that is not a letter and not a dot.
   */
  lemma {:induction false} EnvNameRoundTrip(prefix: string, replacer: string, rest: string)
    requires |replacer| == 1 && !IsUpperLetter(replacer[0]) && !IsLowerLetter(replacer[0]) && replacer[0] != '.'
    requires Upper(rest) == rest && '.' !in rest
    ensures ToEnvKey(FromEnvKey(Upper(prefix) + replacer + rest, prefix, replacer), prefix, replacer)
         == Upper(prefix) + replacer + rest
  {
    var r := replacer[0];
    assert replacer == [r];
    if r in rest {
      var a, b := FirstSplit(rest, r);
      assert Upper(a) == a && Upper(b) == b by {
        UpperAround(a, r, b);
        assert Upper(rest)[..|a|] == Upper(a) && rest[..|a|] == a;
        assert Upper(rest)[|a| + 1..] == Upper(b) && rest[|a| + 1..] == b;
      }
      assert '.' !in a && '.' !in b by {
        assert forall i :: 0 <= i < |a| ==> a[i] == rest[i];
        assert forall i :: 0 <= i < |b| ==> b[i] == rest[|a| + 1 + i];
      }
      EnvNameRoundTripSplit(prefix, replacer, a, b);
    } else {
      var name := Upper(prefix) + [r] + rest;
      LowerAround(Upper(prefix), r, rest);
      LowerOfUpper(prefix);
      CharNotInLower(r, rest);
      FromEnvKeyNoReplacer(name, prefix, replacer, Lower(rest));
      CharNotInLower('.', rest);
      ToEnvKeyNoDot(Lower(rest), prefix, replacer);
      UpperOfLower(rest);
    }
  }

  /** The case of `EnvNameRoundTrip` where the rest holds the replacer: `a`, the replacer, then `b`. */
  lemma EnvNameRoundTripSplit(prefix: string, replacer: string, a: string, b: string)
    requires |replacer| == 1 && !IsUpperLetter(replacer[0]) && !IsLowerLetter(replacer[0]) && replacer[0] != '.'
    requires Upper(a) == a && Upper(b) == b && '.' !in a && '.' !in b && replacer[0] !in a
    ensures ToEnvKey(FromEnvKey(Upper(prefix) + replacer + (a + replacer + b), prefix, replacer), prefix, replacer)
         == Upper(prefix) + replacer + (a + replacer + b)
  {
    var r := replacer[0];
    assert replacer == [r];
    var name := Upper(prefix) + [r] + (a + [r] + b);
    assert FromEnvKey(name, prefix, replacer) == Lower(a) + "." + Lower(b) by {
      LowerAround(Upper(prefix), r, a + [r] + b);
      LowerAround(a, r, b);
      LowerOfUpper(prefix);
      CharNotInLower(r, a);
      assert Lower(name) == Lower(prefix) + replacer + Lower(a) + replacer + Lower(b);
      FromEnvKeyShape(name, prefix, replacer, Lower(a), Lower(b));
    }
    CharNotInLower('.', a);
    ToEnvKeyFirstDot(Lower(a), Lower(b), prefix, replacer);
    UpperOfLower(a);
    UpperOfLower(b);
  }


  /** Case mapping of the words used in the examples below. */
  lemma ExampleWords()
    ensures Upper("PREFIX") == "PREFIX" && Lower("PREFIX") == "prefix" && Lower("prefix") == "prefix"
    ensures Upper("http") == "HTTP" && Upper("host") == "HOST"
    ensures Lower("HTTP") == "http" && Lower("HOST") == "host"
  {
    var u, l, l' := Upper("PREFIX"), Lower("PREFIX"), Lower("prefix");
    assert u[0] == 'P' && u[1] == 'R' && u[2] == 'E' && u[3] == 'F' && u[4] == 'I' && u[5] == 'X';
    assert l[0] == 'p' && l[1] == 'r' && l[2] == 'e' && l[3] == 'f' && l[4] == 'i' && l[5] == 'x';
    assert l'[0] == 'p' && l'[1] == 'r' && l'[2] == 'e' && l'[3] == 'f' && l'[4] == 'i' && l'[5] == 'x';
    var uh, ut := Upper("http"), Upper("host");
    assert uh[0] == 'H' && uh[1] == 'T' && uh[2] == 'T' && uh[3] == 'P';
    assert ut[0] == 'H' && ut[1] == 'O' && ut[2] == 'S' && ut[3] == 'T';
    var lh, lt := Lower("HTTP"), Lower("HOST");
    assert lh[0] == 'h' && lh[1] == 't' && lh[2] == 't' && lh[3] == 'p';
    assert lt[0] == 'h' && lt[1] == 'o' && lt[2] == 's' && lt[3] == 't';
  }

  /** The example of the store's tests: `http.host` with prefix `PREFIX` is `PREFIX_HTTP_HOST`. */
  lemma ToEnvKeyExample()
    ensures ToEnvKey("http" + "." + "host", "PREFIX", "_") == "PREFIX" + "_" + "HTTP" + "_" + "HOST"
  {
    ExampleWords();
    ToEnvKeyFirstDot("http", "host", "PREFIX", "_");
  }

  /** ... and back: `PREFIX_HTTP_HOST` is the key `http.host`, whatever the case of the prefix. */
  lemma FromEnvKeyExample()
    ensures FromEnvKey("PREFIX" + "_" + "HTTP" + "_" + "HOST", "PREFIX", "_") == "http" + "." + "host"
    ensures FromEnvKey("PREFIX" + "_" + "HTTP" + "_" + "HOST", "prefix", "_") == "http" + "." + "host"
  {
    ExampleWords();
    var name := "PREFIX" + "_" + "HTTP" + "_" + "HOST";
    assert name == "PREFIX" + ['_'] + ("HTTP" + ['_'] + "HOST");
    LowerAround("PREFIX", '_', "HTTP" + ['_'] + "HOST");
    LowerAround("HTTP", '_', "HOST");
    FromEnvKeyShape(name, "PREFIX", "_", "http", "host");
    FromEnvKeyShape(name, "prefix", "_", "http", "host");
  }

  /** Keys nested deeper than two levels: only the first dot of `a.b.c` is replaced, giving `P_A_B.C`. */
  lemma DeepKeyExample()
    ensures ToEnvKey("a" + "." + "b" + "." + "c", "P", "_") == "P" + "_" + "A" + "_" + "B" + "." + "C"
  {
    DeepKeyWords();
    assert "a" + "." + "b" + "." + "c" == "a" + "." + ("b" + "." + "c");
    ToEnvKeyFirstDot("a", "b" + "." + "c", "P", "_");
  }

  /** ... and in the other direction only the first separator after the prefix: `P_A_B_C` is the key `a.b_c`, not `a.b.c`. */
  lemma DeepNameExample()
    ensures FromEnvKey("P" + "_" + "A" + "_" + "B" + "_" + "C", "P", "_") == "a" + "." + "b" + "_" + "c"
  {
    DeepKeyWords();
    var name := "P" + "_" + "A" + "_" + "B" + "_" + "C";
    assert name == "P" + ['_'] + ("A" + ['_'] + ("B" + ['_'] + "C"));
    LowerAround("B", '_', "C");
    LowerAround("A", '_', "B" + ['_'] + "C");
    LowerAround("P", '_', "A" + ['_'] + ("B" + ['_'] + "C"));
    FromEnvKeyShape(name, "P", "_", "a", "b" + "_" + "c");
  }

  lemma DeepKeyWords()
    ensures Upper("P") == "P" && Upper("a") == "A"
    ensures Upper("b" + "." + "c") == "B" + "." + "C"
    ensures Lower("P") == "p" && Lower("A") == "a" && Lower("B") == "b" && Lower("C") == "c"
  {
    UpperAround("b", '.', "c");
  }
}
