/** Splitting a string at a delimiter, one `std::getline` at a time. */
module Splitter {

  predicate Free(s: string, delimiter: char) {
    forall i :: 0 <= i < |s| ==> s[i] != delimiter
  }

  predicate AllFree(tokens: seq<string>, delimiter: char) {
    forall i :: 0 <= i < |tokens| ==> Free(tokens[i], delimiter)
  }

  function Join(tokens: seq<string>, delimiter: char): string {
    if tokens == [] then ""
    else if |tokens| == 1 then tokens[0]
    else tokens[0] + [delimiter] + Join(tokens[1..], delimiter)
  }

  /** The delimiter the last token may have been followed by. */
  function Trailing(s: string, delimiter: char): string {
    if s != "" && s[|s| - 1] == delimiter then [delimiter] else ""
  }

  /** Every token followed by a delimiter. */
  function Terminated(tokens: seq<string>, delimiter: char): string {
    if tokens == [] then "" else tokens[0] + [delimiter] + Terminated(tokens[1..], delimiter)
  }

  lemma {:induction false} TerminatedSnoc(tokens: seq<string>, t: string, delimiter: char)
    ensures Terminated(tokens + [t], delimiter) == Terminated(tokens, delimiter) + t + [delimiter]
  {
    if tokens == [] {
      assert [t][1..] == [];
      assert tokens + [t] == [t];
    } else {
      TerminatedSnoc(tokens[1..], t, delimiter);
      assert (tokens + [t])[1..] == tokens[1..] + [t];
    }
  }

  lemma {:induction false} JoinSnoc(tokens: seq<string>, t: string, delimiter: char)
    ensures Join(tokens + [t], delimiter) == Terminated(tokens, delimiter) + t
  {
    if tokens == [] {
      assert tokens + [t] == [t];
    } else {
      JoinSnoc(tokens[1..], t, delimiter);
      assert (tokens + [t])[1..] == tokens[1..] + [t];
    }
  }

  /** Reads from `pos` up to the next delimiter, which it consumes, or to the end. */
  method GetLine(s: string, pos: nat, delimiter: char) returns (token: string, next: nat)
    requires pos < |s|
    ensures pos < next <= |s| && Free(token, delimiter)
    ensures s[pos..next] == token || s[pos..next] == token + [delimiter]
    ensures s[pos..next] == token ==> next == |s|
  {
    next := pos;
    while next < |s| && s[next] != delimiter
      invariant pos <= next <= |s| && Free(s[pos..next], delimiter)
    {
      assert s[pos..next + 1] == s[pos..next] + [s[next]];
      next := next + 1;
    }
    token := s[pos..next];
    if next < |s| {
      assert s[pos..next + 1] == token + [delimiter];
      next := next + 1;
    }
  }

  /** No token holds the delimiter, and the tokens joined give the string back but for one delimiter at its end. */
  method Split(s: string, delimiter: char) returns (tokens: seq<string>)
    ensures AllFree(tokens, delimiter)
    ensures Join(tokens, delimiter) + Trailing(s, delimiter) == s
    ensures tokens == [] <==> s == ""
  {
    tokens := [];
    var pos := 0;
    while pos < |s|
      invariant pos <= |s| && AllFree(tokens, delimiter)
      invariant tokens == [] <==> pos == 0
      invariant pos < |s| ==> s[..pos] == Terminated(tokens, delimiter)
      invariant pos == |s| ==> Join(tokens, delimiter) + Trailing(s, delimiter) == s
    {
      var token, next := GetLine(s, pos, delimiter);
      TerminatedSnoc(tokens, token, delimiter);
      JoinSnoc(tokens, token, delimiter);
      assert s[..next] == s[..pos] + s[pos..next];
      if next == |s| {
        assert s[..next] == s;
        if s[pos..next] == token {
          assert s[|s| - 1] == token[|token| - 1];
        } else {
          assert s[|s| - 1] == (token + [delimiter])[|token|];
        }
      }
      tokens := tokens + [token];
      pos := next;
    }
  }

  /** The first token of a joined text ends at its first delimiter, or with it. */
  lemma {:induction false} FirstToken(ts: seq<string>, delimiter: char)
    requires ts != [] && AllFree(ts, delimiter)
    ensures var j, n := Join(ts, delimiter), |ts[0]|;
            n <= |j| && j[..n] == ts[0] && (forall k :: 0 <= k < n ==> j[k] != delimiter)
            && (if |ts| == 1 then |j| == n else n < |j| && j[n] == delimiter && j[n + 1..] == Join(ts[1..], delimiter))
  {
    var j, t := Join(ts, delimiter), ts[0];
    assert forall k :: 0 <= k < |t| ==> j[k] == t[k];
  }

  /** The three promises of `Split` leave it no choice: there is only one such list of tokens. */
  lemma {:induction false} SplitIsDetermined(ts: seq<string>, us: seq<string>, delimiter: char)
    requires AllFree(ts, delimiter) && AllFree(us, delimiter)
    requires Join(ts, delimiter) == Join(us, delimiter)
    requires ts == [] <==> us == []
    ensures ts == us
  {
    if ts != [] {
      FirstToken(ts, delimiter);
      FirstToken(us, delimiter);
      assert |ts[0]| == |us[0]|;
      if |ts| > 1 {
        SplitIsDetermined(ts[1..], us[1..], delimiter);
        assert ts == [ts[0]] + ts[1..] && us == [us[0]] + us[1..];
      }
    }
  }
}
