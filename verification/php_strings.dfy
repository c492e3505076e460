/** The pieces of PHP's string semantics that the password check of `updated` relies on:
    `empty()` on a string, `stripslashes`, and `addslashes`, with which WordPress escapes
    every submitted request field before the plugin sees it. */
module PhpStrings {

  /** PHP's `empty()` on a string: exactly "" and "0" are empty. */
  predicate EmptyString(s: string)
    ensures EmptyString(s) ==> |s| <= 1
  {
    s == "" || s == "0"
  }

  /** The character `stripslashes` produces for the escape sequence backslash-`c`. */
  function Unescape(c: char): (r: char)
    ensures r == '\\' <==> c == '\\'
  {
    if c == '0' then '\0' else c
  }

  /** PHP's `stripslashes`: a backslash is dropped and the character after it is kept
      verbatim, except that backslash-zero becomes NUL; a lone trailing backslash is dropped. */
  function StripSlashes(s: string): (r: string)
    ensures |r| <= |s|
  {
    if s == [] then []
    else if s[0] == '\\' then
      if |s| == 1 then [] else [Unescape(s[1])] + StripSlashes(s[2..])
    else [s[0]] + StripSlashes(s[1..])
  }

  /** How `addslashes` writes one character: NUL, quote, double quote and backslash
      are prefixed with a backslash (NUL as backslash-zero), everything else is kept. */
  function Escape(c: char): (r: string)
    ensures 1 <= |r| <= 2
    ensures |r| == 2 <==> r[0] == '\\'
  {
    if c == '\0' then "\\0"
    else if c == '\'' || c == '"' || c == '\\' then ['\\', c]
    else [c]
  }

  /** PHP's `addslashes`. */
  function AddSlashes(s: string): (r: string)
    ensures |s| <= |r|
  {
    if s == [] then [] else Escape(s[0]) + AddSlashes(s[1..])
  }

  /** `stripslashes` is the identity on a string without backslashes. */
  lemma {:induction false} StripSlashesIdentity(s: string)
    requires '\\' !in s
    ensures StripSlashes(s) == s
  {
    if s != [] {
      assert s[0] != '\\';
      assert '\\' !in s[1..] by {
        forall i | 0 <= i < |s[1..]| ensures s[1..][i] != '\\' {
          assert s[1..][i] == s[i + 1];
        }
      }
      StripSlashesIdentity(s[1..]);
    }
  }

  /** `stripslashes` undoes `addslashes`. */
  lemma {:induction false} StripAfterAdd(s: string)
    ensures StripSlashes(AddSlashes(s)) == s
  {
    if s != [] {
      var e, rest := Escape(s[0]), AddSlashes(s[1..]);
      StripAfterAdd(s[1..]);
      assert AddSlashes(s) == e + rest;
      if |e| == 2 {
        assert (e + rest)[2..] == rest;
        assert StripSlashes(e + rest) == [Unescape(e[1])] + StripSlashes(rest);
      } else {
        assert (e + rest)[1..] == rest;
        assert StripSlashes(e + rest) == [e[0]] + StripSlashes(rest);
      }
    }
  }

  /** Two different strings are never escaped to the same string. */
  lemma AddSlashesInjective(a: string, b: string)
    requires AddSlashes(a) == AddSlashes(b)
    ensures a == b
  {
    StripAfterAdd(a);
    StripAfterAdd(b);
  }

  /** Escaping neither makes a string PHP-empty nor makes an empty one non-empty. */
  lemma AddSlashesKeepsEmptiness(s: string)
    ensures EmptyString(AddSlashes(s)) <==> EmptyString(s)
  {
    if s != [] {
      var e, rest := Escape(s[0]), AddSlashes(s[1..]);
      assert AddSlashes(s) == e + rest;
      if AddSlashes(s) == "0" {
        assert |e| == 1 && rest == [];
        assert e[0] == (e + rest)[0] == '0';
        assert s[1..] == [];
        assert s == [s[0]];
      }
    }
  }

  /** A backslash survives `stripslashes` only where the input holds two backslashes in a row. */
  lemma {:induction false} BackslashNeedsPair(s: string)
    requires '\\' in StripSlashes(s)
    ensures exists i :: 0 <= i < |s| - 1 && s[i] == '\\' && s[i + 1] == '\\'
  {
    if s[0] == '\\' {
      assert |s| >= 2;
      if s[1] == '\\' {
        assert s[0] == '\\' && s[0 + 1] == '\\';
      } else {
        assert StripSlashes(s) == [Unescape(s[1])] + StripSlashes(s[2..]);
        BackslashNeedsPair(s[2..]);
        var i :| 0 <= i < |s[2..]| - 1 && s[2..][i] == '\\' && s[2..][i + 1] == '\\';
        assert s[i + 2] == '\\' && s[(i + 2) + 1] == '\\';
      }
    } else {
      assert StripSlashes(s) == [s[0]] + StripSlashes(s[1..]);
      BackslashNeedsPair(s[1..]);
      var i :| 0 <= i < |s[1..]| - 1 && s[1..][i] == '\\' && s[1..][i + 1] == '\\';
      assert s[i + 1] == '\\' && s[(i + 1) + 1] == '\\';
    }
  }
}
