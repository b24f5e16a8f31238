/**
 * String helpers standing for the Python built-ins the program uses:
 * `str.join`, `in` on strings, `str.strip`, `str.capitalize`, `str.split('/')`
 * and positional `str.format`.
 */
module Text {
  import opened Wrappers

  /** `sep.join(parts)`. */
  function Join(sep: string, parts: seq<string>): string
  {
    if |parts| == 0 then "" else if |parts| == 1 then parts[0] else parts[0] + sep + Join(sep, parts[1..])
  }

  /** Joining `parts + [x]` puts one separator before `x`. */
  lemma {:induction false} JoinSnoc(sep: string, parts: seq<string>, x: string)
    requires |parts| > 0
    ensures Join(sep, parts + [x]) == Join(sep, parts) + sep + x
  {
    if |parts| == 1 {
      assert parts + [x] == [parts[0], x];
      assert [parts[0], x][1..] == [x];
    } else {
      assert (parts + [x])[1..] == parts[1..] + [x];
      JoinSnoc(sep, parts[1..], x);
    }
  }

  /** `a in b` for two strings: `a` occurs somewhere in `b`. */
  predicate Contains(b: string, a: string)
  {
    exists i :: 0 <= i <= |b| && IsPrefix(a, b[i..])
  }

  predicate IsPrefix(a: string, s: string)
  {
    |a| <= |s| && s[..|a|] == a
  }

  /** A string without the needle's first character does not contain the needle. */
  lemma NotContainsWithoutFirst(b: string, a: string)
    requires |a| > 0 && !HasChar(b, a[0])
    ensures !Contains(b, a)
  {
  }

  /** `c in s` for a one-character needle. */
  predicate HasChar(s: string, c: char)
  {
    exists i :: 0 <= i < |s| && s[i] == c
  }

  /**
   * The characters `str.isspace` accepts, which are the ones `str.strip()`
   * removes: the ASCII blanks and separators, NEL, the no-break space, the
   * Ogham space mark, the spaces from en quad to hair space, the line and
   * paragraph separators, the narrow no-break space, the medium mathematical
   * space and the ideographic space.
   */
  predicate IsSpace(c: char)
  {
    c == ' ' || c == '\t' || c == '\n' || c == '\r' || c == '\U{0B}' || c == '\U{0C}'
    || c == '\U{1C}' || c == '\U{1D}' || c == '\U{1E}' || c == '\U{1F}'
    || c == '\U{85}' || c == '\U{A0}' || c == '\U{1680}' || '\U{2000}' <= c <= '\U{200A}'
    || c == '\U{2028}' || c == '\U{2029}' || c == '\U{202F}' || c == '\U{205F}' || c == '\U{3000}'
  }

  function TrimLeft(s: string): (r: string)
    ensures |r| <= |s| && r == s[|s| - |r|..]
    ensures forall k :: 0 <= k < |s| - |r| ==> IsSpace(s[k])
    ensures |r| > 0 ==> !IsSpace(r[0])
  {
    if |s| > 0 && IsSpace(s[0]) then TrimLeft(s[1..]) else s
  }

  function TrimRight(s: string): (r: string)
    ensures |r| <= |s| && r == s[..|r|]
    ensures forall k :: |r| <= k < |s| ==> IsSpace(s[k])
    ensures |r| > 0 ==> !IsSpace(r[|r| - 1])
  {
    if |s| > 0 && IsSpace(s[|s| - 1]) then TrimRight(s[..|s| - 1]) else s
  }

  /**
   * `s.strip()`: the result neither starts nor ends with whitespace;
   * StripShape says what was removed.
   */
  function Strip(s: string): (r: string)
    ensures |r| <= |s|
    ensures |r| > 0 ==> !IsSpace(r[0]) && !IsSpace(r[|r| - 1])
  {
    TrimRight(TrimLeft(s))
  }

  /** `s.strip()` is the infix `s[i..j]` left after removing the whitespace run at each end. */
  lemma StripShape(s: string) returns (i: nat, j: nat)
    ensures i <= j <= |s| && Strip(s) == s[i..j]
    ensures forall k :: 0 <= k < i ==> IsSpace(s[k])
    ensures forall k :: j <= k < |s| ==> IsSpace(s[k])
  {
    var l := TrimLeft(s);
    var r := TrimRight(l);
    i := |s| - |l|;
    j := i + |r|;
    assert r == s[i..j];
    forall k | j <= k < |s| ensures IsSpace(s[k]) { assert s[k] == l[k - i]; }
  }

  /** A string with no whitespace at either end is its own strip. */
  lemma StripKeeps(s: string)
    requires s == [] || (!IsSpace(s[0]) && !IsSpace(s[|s| - 1]))
    ensures Strip(s) == s
  {
    if s != [] {
      assert TrimLeft(s) == s;
    }
  }

  /**
   * One trailing white-space character of any kind is dropped: `(s + c).strip()`
   * is `s` for a string `s` that is its own strip.
   */
  lemma StripTrailingSpace(s: string, c: char)
    requires IsSpace(c)
    requires s == [] || (!IsSpace(s[0]) && !IsSpace(s[|s| - 1]))
    ensures Strip(s + [c]) == s
  {
    if s == [] {
      assert TrimLeft([c]) == TrimLeft([c][1..]);
    } else {
      var t := s + [c];
      assert TrimLeft(t) == t;
      assert t[..|t| - 1] == s;
      assert TrimRight(t) == TrimRight(s);
      StripKeeps(s);
    }
  }

  /** Trailing blanks are dropped: `(s + " ").strip()` is `s` for a string `s` that is its own strip. */
  lemma StripTrailingBlank(s: string)
    requires s == [] || (!IsSpace(s[0]) && !IsSpace(s[|s| - 1]))
    ensures Strip(s + " ") == s
  {
    StripTrailingSpace(s, ' ');
  }

  /** A no-break space after a command is stripped as `str.strip` strips it. */
  lemma StripNoBreakSpace()
    ensures Strip("ls\U{A0}") == "ls"
  {
    StripTrailingSpace("ls", '\U{A0}');
    assert "ls" + ['\U{A0}'] == "ls\U{A0}";
  }

  /** Stripping twice is stripping once. */
  lemma StripIdempotent(s: string)
    ensures Strip(Strip(s)) == Strip(s)
  {
    var t := Strip(s);
    if |t| > 0 {
      var i, j := StripShape(t);
      assert !IsSpace(t[0]) && !IsSpace(t[|t| - 1]);
      assert i == 0 && j == |t|;
    }
  }

  /** `s.split('/')`, used for the project-relative paths the source writes with slashes. */
  function SplitPath(s: string): (r: seq<string>)
    ensures |r| >= 1
    ensures Join("/", r) == s
    ensures forall k :: 0 <= k < |r| ==> !HasChar(r[k], '/')
  {
    if s == [] then [""]
    else if s[0] == '/' then
      var rest := SplitPath(s[1..]);
      assert s == "" + "/" + s[1..];
      [""] + rest
    else
      var rest := SplitPath(s[1..]);
      assert !HasChar([s[0]] + rest[0], '/') by {
        forall k | 0 <= k < |[s[0]] + rest[0]| ensures ([s[0]] + rest[0])[k] != '/' {
          if k > 0 { assert ([s[0]] + rest[0])[k] == rest[0][k - 1]; assert !HasChar(rest[0], '/'); }
        }
      }
      PrependHead(s[0], rest);
      [[s[0]] + rest[0]] + rest[1..]
  }

  /** Different strings split differently, since joining gives each back. */
  lemma SplitPathInjective(a: string, b: string)
    ensures SplitPath(a) == SplitPath(b) ==> a == b
  {
  }

  /** A name without a slash is one component. */
  lemma {:induction false} SplitPathPlain(s: string)
    requires !HasChar(s, '/')
    ensures SplitPath(s) == [s]
  {
    if s != [] {
      assert !HasChar(s[1..], '/') by { forall k | 0 <= k < |s[1..]| ensures s[1..][k] != '/' { assert s[1..][k] == s[k + 1]; } }
      SplitPathPlain(s[1..]);
      assert [s[0]] + s[1..] == s;
    }
  }

  /** `a/b` with slash-free `a` and `b` is the two components `a` and `b`. */
  lemma {:induction false} SplitPathTwo(a: string, b: string)
    requires !HasChar(a, '/') && !HasChar(b, '/')
    ensures SplitPath(a + "/" + b) == [a, b]
    decreases |a|
  {
    if a == [] {
      assert a + "/" + b == "/" + b;
      assert ("/" + b)[1..] == b;
      SplitPathPlain(b);
    } else {
      var s := a + "/" + b;
      assert s[0] == a[0] && s[1..] == a[1..] + "/" + b;
      assert !HasChar(a[1..], '/') by { forall k | 0 <= k < |a[1..]| ensures a[1..][k] != '/' { assert a[1..][k] == a[k + 1]; } }
      SplitPathTwo(a[1..], b);
      assert [a[0]] + a[1..] == a;
    }
  }

  lemma PrependHead(c: char, rest: seq<string>)
    requires |rest| >= 1
    ensures Join("/", [[c] + rest[0]] + rest[1..]) == [c] + Join("/", rest)
  {
    if |rest| > 1 {
      assert ([[c] + rest[0]] + rest[1..])[1..] == rest[1..];
    }
  }

  function UpperAscii(c: char): char
  {
    if 'a' <= c <= 'z' then (c as int - 32) as char else c
  }

  function LowerAscii(c: char): char
  {
    if 'A' <= c <= 'Z' then (c as int + 32) as char else c
  }

  function LowerAll(s: string): (r: string)
    ensures |r| == |s| && forall k :: 0 <= k < |s| ==> r[k] == LowerAscii(s[k])
  {
    if s == [] then [] else [LowerAscii(s[0])] + LowerAll(s[1..])
  }

  /** `s.capitalize()` on ASCII: the first letter upper-cased, all others lower-cased. */
  function Capitalize(s: string): (r: string)
    ensures |r| == |s|
    ensures |s| > 0 ==> r[0] == UpperAscii(s[0])
    ensures forall k :: 0 < k < |s| ==> r[k] == LowerAscii(s[k])
  {
    if s == [] then [] else [UpperAscii(s[0])] + LowerAll(s[1..])
  }

  /**
   * `template.format(*args)` for templates whose only fields are `{}`:
   * each `{}` is replaced by the next argument, extra arguments are ignored,
   * and running out of arguments is Python's IndexError (None). A lone brace
   * and the `{{`/`}}` escapes are copied through; no template the program
   * formats contains them.
   */
  function Format(template: string, args: seq<string>): (r: Option<string>)
    decreases |template|
  {
    if |template| >= 2 && template[..2] == "{}" then
      if args == [] then None
      else match Format(template[2..], args[1..])
        case None => None
        case Some(rest) => Some(args[0] + rest)
    else if template == [] then Some([])
    else match Format(template[1..], args)
      case None => None
      case Some(rest) => Some([template[0]] + rest)
  }

  /** No `{}` field anywhere in `s`. */
  predicate NoField(s: string)
  {
    forall k :: 0 <= k < |s| - 1 ==> !(s[k] == '{' && s[k + 1] == '}')
  }

  /** A template without `{}` fields formats to itself, whatever the arguments. */
  lemma {:induction false} FormatNoFields(template: string, args: seq<string>)
    requires NoField(template)
    ensures Format(template, args) == Some(template)
    decreases |template|
  {
    if template != [] {
      assert !(template[0] == '{' && |template| >= 2 && template[1] == '}');
      assert NoField(template[1..]) by {
        forall k | 0 <= k < |template[1..]| - 1
          ensures !(template[1..][k] == '{' && template[1..][k + 1] == '}')
        {
          assert template[1..][k] == template[k + 1] && template[1..][k + 1] == template[k + 2];
        }
      }
      FormatNoFields(template[1..], args);
      assert [template[0]] + template[1..] == template;
    }
  }

  /** A suffix of a string without fields has none either. */
  lemma NoFieldTail(s: string)
    requires |s| > 0 && NoField(s)
    ensures NoField(s[1..])
  {
    forall k | 0 <= k < |s[1..]| - 1 ensures !(s[1..][k] == '{' && s[1..][k + 1] == '}') {
      assert s[1..][k] == s[k + 1] && s[1..][k + 1] == s[k + 2];
    }
  }

  /** A first character that does not open a field is copied. */
  lemma FormatCons(c: char, u: string, args: seq<string>)
    requires !(c == '{' && |u| > 0 && u[0] == '}')
    ensures Format([c] + u, args) == match Format(u, args) case None => None case Some(r) => Some([c] + r)
  {
    var t := [c] + u;
    assert t[1..] == u;
    if |t| >= 2 {
      assert t[..2][0] == c && t[..2][1] == u[0];
    }
  }

  /** One `{}` field and one argument: the argument lands exactly where the field was. */
  lemma {:induction false} FormatOneField(pre: string, post: string, arg: string)
    requires NoField(pre + "{") && NoField(post)
    ensures Format(pre + "{}" + post, [arg]) == Some(pre + arg + post)
    decreases |pre|
  {
    if pre == [] {
      FormatLeadingField(post, arg);
      assert pre + "{}" + post == "{}" + post && pre + arg + post == arg + post;
    } else {
      var u := pre[1..] + "{}" + post;
      assert pre + "{}" + post == [pre[0]] + u;
      var w := pre + "{";
      assert !(pre[0] == '{' && u[0] == '}') by {
        assert w[1..] == pre[1..] + "{";
        NoFieldTail(w);
        assert u[0] == w[1] && w[0] == pre[0];
      }
      assert NoField(pre[1..] + "{") by {
        assert w[1..] == pre[1..] + "{";
        NoFieldTail(w);
      }
      FormatCons(pre[0], u, [arg]);
      FormatOneField(pre[1..], post, arg);
      assert [pre[0]] + (pre[1..] + arg + post) == pre + arg + post;
    }
  }

  /** A template that opens with its only field: the argument, then the rest. */
  lemma FormatLeadingField(post: string, arg: string)
    requires NoField(post)
    ensures Format("{}" + post, [arg]) == Some(arg + post)
  {
    var t := "{}" + post;
    assert t[..2] == "{}";
    assert t[2..] == post;
    FormatNoFields(post, []);
    assert [arg][1..] == [];
  }

  /** Two field-free strings stay field-free when joined, unless the join creates `{}`. */
  lemma NoFieldConcat(a: string, b: string)
    requires NoField(a) && NoField(b)
    requires a == [] || b == [] || !(a[|a| - 1] == '{' && b[0] == '}')
    ensures NoField(a + b)
  {
    var s := a + b;
    forall k | 0 <= k < |s| - 1 ensures !(s[k] == '{' && s[k + 1] == '}') {
      if k + 1 < |a| {
        assert s[k] == a[k] && s[k + 1] == a[k + 1];
      } else if k >= |a| {
        assert s[k] == b[k - |a|] && s[k + 1] == b[k + 1 - |a|];
      }
    }
  }
}
