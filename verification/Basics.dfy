/** Small vocabulary shared by every component: optional values, results that carry the source's
    thrown errors, text trimming, and the `a:b` composite keys of the in-memory maps. */
module Basics {

  datatype Option<T> = None | Some(value: T) {
    function GetOr(default: T): T {
      if None? then default else value
    }
  }

  datatype Result<T, E> = Ok(value: T) | Err(error: E)

  function Min(a: real, b: real): real {
    if a <= b then a else b
  }

  function Abs(x: real): real {
    if x < 0.0 then -x else x
  }

  lemma Regroup<T>(a: seq<T>, b: seq<T>, c: seq<T>)
    ensures a + (b + c) == (a + b) + c
  {
  }

  // ---------- text ----------

  /** White space and line terminators as `String.prototype.trim` sees them. */
  predicate IsSpace(c: char) {
    '\t' <= c <= '\r' || c == ' ' || c == '\U{00A0}' || c == '\U{1680}' || '\U{2000}' <= c <= '\U{200A}'
    || c == '\U{2028}' || c == '\U{2029}' || c == '\U{202F}' || c == '\U{205F}' || c == '\U{3000}' || c == '\U{FEFF}'
  }

  function TrimStart(s: string): string {
    if s != [] && IsSpace(s[0]) then TrimStart(s[1..]) else s
  }

  function TrimEnd(s: string): string {
    if s != [] && IsSpace(s[|s| - 1]) then TrimEnd(s[..|s| - 1]) else s
  }

  function Trim(s: string): string {
    TrimEnd(TrimStart(s))
  }

  /** A visible character survives trimming. */
  lemma {:induction false} TrimKeepsVisible(s: string, i: nat)
    requires i < |s| && !IsSpace(s[i])
    ensures Trim(s) != ""
  {
    TrimStartKeepsVisible(s, i);
    var t := TrimStart(s);
    var j :| 0 <= j < |t| && !IsSpace(t[j]);
    TrimEndKeepsVisible(t, j);
  }

  lemma {:induction false} TrimStartKeepsVisible(s: string, i: nat)
    requires i < |s| && !IsSpace(s[i])
    ensures exists j :: 0 <= j < |TrimStart(s)| && !IsSpace(TrimStart(s)[j])
  {
    if IsSpace(s[0]) {
      assert s[1..][i - 1] == s[i];
      TrimStartKeepsVisible(s[1..], i - 1);
      var j :| 0 <= j < |TrimStart(s[1..])| && !IsSpace(TrimStart(s[1..])[j]);
      assert !IsSpace(TrimStart(s)[j]);
    } else {
      assert !IsSpace(TrimStart(s)[i]);
    }
  }

  lemma {:induction false} TrimEndKeepsVisible(s: string, i: nat)
    requires i < |s| && !IsSpace(s[i])
    ensures TrimEnd(s) != ""
  {
    if IsSpace(s[|s| - 1]) {
      TrimEndKeepsVisible(s[..|s| - 1], i);
    }
  }

  // ---------- composite keys ----------

  /** `${owner}:${key}`, the key of every in-memory map that is shared between owners. */
  function Composite(owner: string, key: string): string {
    owner + ":" + key
  }

  /** Two owners can share an entry exactly when one of them, followed by the colon, starts the
      other one followed by the colon. */
  lemma CompositeCollision(a: string, b: string)
    ensures (exists k, l :: Composite(a, k) == Composite(b, l)) <==> (a + ":" <= b + ":" || b + ":" <= a + ":")
  {
    if a + ":" <= b + ":" {
      var rest := (b + ":")[|a| + 1..];
      assert Composite(a, rest) == Composite(b, "");
    }
    if b + ":" <= a + ":" {
      var rest := (a + ":")[|b| + 1..];
      assert Composite(a, "") == Composite(b, rest);
    }
    if k, l :| Composite(a, k) == Composite(b, l) {
      var whole := Composite(a, k);
      assert a + ":" == whole[..|a| + 1];
      assert b + ":" == whole[..|b| + 1];
    }
  }

  /** Owners without a colon never share an entry, and the key is recovered too. */
  lemma CompositeInjective(a: string, k: string, b: string, l: string)
    requires ':' !in a && ':' !in b
    requires Composite(a, k) == Composite(b, l)
    ensures a == b && k == l
  {
    var whole := Composite(a, k);
    assert whole[|a|] == ':' && whole[|b|] == ':';
    assert forall i :: 0 <= i < |a| ==> whole[i] == a[i];
    assert forall i :: 0 <= i < |b| ==> whole[i] == b[i];
    assert |a| == |b|;
    assert a == whole[..|a|] == b;
    assert k == whole[|a| + 1..] == l;
  }
}
