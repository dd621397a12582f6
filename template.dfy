/** Named-placeholder substitution as `strfmt` performs it for plain
    `{name}` placeholders: every `{name}` is replaced by the value bound to
    `name`, and a name without a value is a `KeyError`. The doubled-brace
    escapes and format specifications are outside this model; a stray or
    unbalanced brace is an `Invalid` format here. */
module Template {
  import opened Wrappers

  datatype FormatError = KeyError(key: string) | Invalid

  predicate IsBrace(c: char) {
    c == '{' || c == '}'
  }

  predicate BraceFree(s: string) {
    forall i :: 0 <= i < |s| ==> !IsBrace(s[i])
  }

  /** The first brace of `t` at or after `i`, or `|t|` when there is none. */
  function NextBrace(t: string, i: nat): (j: nat)
    requires i <= |t|
    ensures i <= j <= |t|
    ensures BraceFree(t[i..j])
    ensures j < |t| ==> IsBrace(t[j])
    decreases |t| - i
  {
    if i == |t| || IsBrace(t[i]) then i
    else
      var j := NextBrace(t, i + 1);
      assert t[i..j] == [t[i]] + t[i + 1..j];
      j
  }

  /** The first brace at or after `i` is the one at `n` when none lies between. */
  lemma {:induction false} NextBraceAt(t: string, i: nat, n: nat)
    requires i <= n < |t| && BraceFree(t[i..n]) && IsBrace(t[n])
    ensures NextBrace(t, i) == n
    decreases n - i
  {
    if i < n {
      assert t[i] == t[i..n][0];
      assert t[i + 1..n] == t[i..n][1..];
      NextBraceAt(t, i + 1, n);
    }
  }

  /** `strfmt(template, vars)`, scanned from left to right; the first problem
      met is the error. */
  function Format(t: string, vars: map<string, string>): (r: Result<string, FormatError>)
    ensures BraceFree(t) ==> r == Success(t)
    ensures r.Failure? && r.error.KeyError? ==> r.error.key !in vars
    decreases |t|
  {
    if t == [] then Success("")
    else if t[0] == '}' then Failure(Invalid)
    else if t[0] != '{' then
      assert BraceFree(t) ==> BraceFree(t[1..]) && t == [t[0]] + t[1..];
      match Format(t[1..], vars)
      case Success(rest) => Success([t[0]] + rest)
      case Failure(e) => Failure(e)
    else
      var j := NextBrace(t, 1);
      if j == |t| || t[j] == '{' then Failure(Invalid)
      else
        var key := t[1..j];
        if key !in vars then Failure(KeyError(key))
        else
          match Format(t[j + 1..], vars)
          case Success(rest) => Success(vars[key] + rest)
          case Failure(e) => Failure(e)
  }

  /** A template read as its pieces: literal text and placeholders. */
  datatype Piece = Literal(text: string) | Placeholder(key: string)

  predicate WellFormed(ps: seq<Piece>) {
    forall i :: 0 <= i < |ps| ==>
      match ps[i]
      case Literal(text) => BraceFree(text)
      case Placeholder(key) => BraceFree(key)
  }

  /** The template text the pieces are written as. */
  function Text(ps: seq<Piece>): string {
    if ps == [] then ""
    else
      (match ps[0]
       case Literal(text) => text
       case Placeholder(key) => "{" + key + "}") + Text(ps[1..])
  }

  /** The reference meaning of a template: literals kept, placeholders
      replaced by their values, the first unbound key reported. */
  function Expand(ps: seq<Piece>, vars: map<string, string>): Result<string, FormatError> {
    if ps == [] then Success("")
    else
      match ps[0]
      case Literal(text) =>
        (match Expand(ps[1..], vars)
         case Success(rest) => Success(text + rest)
         case Failure(e) => Failure(e))
      case Placeholder(key) =>
        if key !in vars then Failure(KeyError(key))
        else
          match Expand(ps[1..], vars)
          case Success(rest) => Success(vars[key] + rest)
          case Failure(e) => Failure(e)
  }

  /** The keys of the placeholders, in order. */
  function Keys(ps: seq<Piece>): seq<string> {
    if ps == [] then []
    else (if ps[0].Placeholder? then [ps[0].key] else []) + Keys(ps[1..])
  }

  /** Text without braces passes through unchanged, ahead of whatever follows. */
  lemma {:induction false} FormatLiteral(s: string, rest: string, vars: map<string, string>)
    requires BraceFree(s)
    ensures Format(s + rest, vars)
         == match Format(rest, vars)
            case Success(r) => Success(s + r)
            case Failure(e) => Failure(e)
    decreases |s|
  {
    if s != [] {
      assert (s + rest)[0] == s[0] && !IsBrace(s[0]);
      assert (s + rest)[1..] == s[1..] + rest;
      assert BraceFree(s[1..]) by {
        forall i | 0 <= i < |s[1..]| ensures !IsBrace(s[1..][i]) {
          assert s[1..][i] == s[i + 1];
        }
      }
      FormatLiteral(s[1..], rest, vars);
      if Format(rest, vars).Success? {
        var r := Format(rest, vars).value;
        assert [s[0]] + (s[1..] + r) == s + r;
      }
    } else {
      assert s + rest == rest;
      if Format(rest, vars).Success? {
        assert s + Format(rest, vars).value == Format(rest, vars).value;
      }
    }
  }

  /** A placeholder is replaced by its value, ahead of whatever follows. */
  lemma FormatPlaceholder(key: string, rest: string, vars: map<string, string>)
    requires BraceFree(key)
    ensures Format("{" + key + "}" + rest, vars)
         == if key !in vars then Failure(KeyError(key))
            else match Format(rest, vars)
                 case Success(r) => Success(vars[key] + r)
                 case Failure(e) => Failure(e)
  {
    var t := "{" + key + "}" + rest;
    var n := |key| + 1;
    assert t[1..n] == key;
    NextBraceAt(t, 1, n);
    var j := n;
    assert t[j + 1..] == rest;
  }

  /** Brace-free text formats to itself. */
  lemma FormatBraceFree(s: string, vars: map<string, string>)
    requires BraceFree(s)
    ensures Format(s, vars) == Success(s)
  {
    FormatLiteral(s, "", vars);
    assert s + "" == s;
  }

  /** A bound placeholder followed by brace-free text is replaced by its value. */
  lemma FormatBoundPlaceholder(key: string, after: string, vars: map<string, string>)
    requires BraceFree(key) && BraceFree(after) && key in vars
    ensures Format("{" + key + "}" + after, vars) == Success(vars[key] + after)
  {
    FormatBraceFree(after, vars);
    FormatPlaceholder(key, after, vars);
  }

  /** A bound placeholder between brace-free text is replaced by its value. */
  lemma FormatBetween(before: string, key: string, after: string, vars: map<string, string>)
    requires BraceFree(before) && BraceFree(key) && BraceFree(after) && key in vars
    ensures Format(before + ("{" + key + "}" + after), vars) == Success(before + (vars[key] + after))
  {
    FormatBoundPlaceholder(key, after, vars);
    FormatLiteral(before, "{" + key + "}" + after, vars);
  }

  /** Formatting the text of well-formed pieces is their reference meaning. */
  lemma {:induction false} FormatText(ps: seq<Piece>, vars: map<string, string>)
    requires WellFormed(ps)
    ensures Format(Text(ps), vars) == Expand(ps, vars)
  {
    if ps != [] {
      assert WellFormed(ps[1..]) by {
        forall i | 0 <= i < |ps[1..]| ensures ps[1..][i] == ps[i + 1] { }
      }
      FormatText(ps[1..], vars);
      match ps[0]
      case Literal(text) =>
        FormatLiteral(text, Text(ps[1..]), vars);
      case Placeholder(key) =>
        FormatPlaceholder(key, Text(ps[1..]), vars);
    }
  }

  /** Every key has a value. */
  predicate AllBound(ks: seq<string>, vars: map<string, string>) {
    forall i :: 0 <= i < |ks| ==> ks[i] in vars
  }

  /** Expansion succeeds exactly when every placeholder has a value; when it
      fails, it names a key without one. */
  lemma {:induction false} ExpandSucceeds(ps: seq<Piece>, vars: map<string, string>)
    ensures Expand(ps, vars).Success? <==> AllBound(Keys(ps), vars)
    ensures Expand(ps, vars).Failure? ==> Expand(ps, vars).error.KeyError? && Expand(ps, vars).error.key !in vars
  {
    if ps != [] {
      ExpandSucceeds(ps[1..], vars);
      var ks := Keys(ps[1..]);
      if ps[0].Placeholder? {
        var all := Keys(ps);
        assert all == [ps[0].key] + ks;
        assert AllBound(all, vars) <==> ps[0].key in vars && AllBound(ks, vars) by {
          assert forall i :: 1 <= i < |all| ==> all[i] == ks[i - 1];
          if ps[0].key in vars && AllBound(ks, vars) {
            forall i | 0 <= i < |all| ensures all[i] in vars {
              if i > 0 { assert all[i] == ks[i - 1]; }
            }
          }
          if AllBound(all, vars) {
            forall i | 0 <= i < |ks| ensures ks[i] in vars {
              assert ks[i] == all[i + 1];
            }
          }
        }
      } else {
        assert Keys(ps) == ks;
      }
    }
  }
}
