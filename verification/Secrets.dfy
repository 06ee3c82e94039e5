/** Resolving secrets, each of which may be encrypted by another one. */
module Secrets {
  import opened Codec

  const MAX_SECRET_BYTES: nat := 8192

  datatype Place = File(path: string) | Inline(text: string) | EnvVar(name: string)

  datatype Encoding = Plaintext | Base64

  datatype Def = Def(source: Place, encoding: Encoding, encryptedBy: Option<string>)

  /** Loading a source (of a secret that is encrypted or not), decoding base64, and decrypting with a
      key and the secret's name; each may fail. */
  datatype Env = Env(
    load: (string, Place, bool) -> Option<seq<byte>>,
    base64: seq<byte> -> Option<seq<byte>>,
    decrypt: (seq<byte>, string, seq<byte>) -> Option<seq<byte>>)

  function DecodeBytes(env: Env, bytes: seq<byte>, encoding: Encoding): Option<seq<byte>> {
    match encoding case Plaintext => Some(bytes) case Base64 => env.base64(bytes)
  }

  /** Loaded, decoded and short enough. */
  function Loaded(env: Env, name: string, def: Def): Option<seq<byte>> {
    match env.load(name, def.source, def.encryptedBy.Some?)
    case None => None
    case Some(raw) =>
      match DecodeBytes(env, raw, def.encoding)
      case None => None
      case Some(bytes) => if |bytes| > MAX_SECRET_BYTES then None else Some(bytes)
  }

  function Opened(env: Env, name: string, def: Def, kek: seq<byte>): Option<seq<byte>> {
    match Loaded(env, name, def)
    case None => None
    case Some(ciphertext) => env.decrypt(kek, name, ciphertext)
  }

  // ----- recursive resolution along the chain of keys -----

  function Resolve(env: Env, defs: map<string, Def>, name: string, depth: nat): Option<seq<byte>>
    decreases depth
  {
    if depth == 0 || name !in defs then None
    else match defs[name].encryptedBy
      case None => Loaded(env, name, defs[name])
      case Some(k) =>
        match Resolve(env, defs, k, depth - 1)
        case None => None
        case Some(kek) => Opened(env, name, defs[name], kek)
  }

  ghost predicate Resolvable(env: Env, defs: map<string, Def>, name: string) {
    exists d: nat :: Resolve(env, defs, name, d).Some?
  }

  lemma {:induction false} DepthsAgree(env: Env, defs: map<string, Def>, name: string, a: nat, b: nat)
    requires Resolve(env, defs, name, a).Some? && Resolve(env, defs, name, b).Some?
    ensures Resolve(env, defs, name, a) == Resolve(env, defs, name, b)
    decreases a
  {
    if defs[name].encryptedBy.Some? {
      DepthsAgree(env, defs, defs[name].encryptedBy.value, a - 1, b - 1);
    }
  }

  /** The value of a secret. */
  ghost function ValueOf(env: Env, defs: map<string, Def>, name: string): seq<byte>
    requires Resolvable(env, defs, name)
  {
    var d: nat :| Resolve(env, defs, name, d).Some?;
    Resolve(env, defs, name, d).value
  }

  lemma ValueIs(env: Env, defs: map<string, Def>, name: string, d: nat)
    requires Resolve(env, defs, name, d).Some?
    ensures Resolvable(env, defs, name) && ValueOf(env, defs, name) == Resolve(env, defs, name, d).value
  {
    var e: nat :| Resolve(env, defs, name, e).Some? && ValueOf(env, defs, name) == Resolve(env, defs, name, e).value;
    DepthsAgree(env, defs, name, d, e);
  }

  /** What the whole resolution amounts to, whatever the order in which it is done. */
  ghost function Resolution(env: Env, defs: map<string, Def>): Option<map<string, seq<byte>>> {
    if forall n | n in defs :: Resolvable(env, defs, n) then Some(map n | n in defs :: ValueOf(env, defs, n)) else None
  }

  // ----- when it succeeds -----

  predicate RefsExist(defs: map<string, Def>) {
    forall n | n in defs :: defs[n].encryptedBy.Some? ==> defs[n].encryptedBy.value in defs
  }

  /** A set of secrets each of which is encrypted by one of the set: nothing in it can be resolved. */
  predicate Circular(defs: map<string, Def>, c: set<string>) {
    c != {} && forall n | n in c :: n in defs && defs[n].encryptedBy.Some? && defs[n].encryptedBy.value in c
  }

  lemma {:induction false} CircularUnresolved(env: Env, defs: map<string, Def>, c: set<string>, n: string, d: nat)
    requires Circular(defs, c) && n in c
    ensures Resolve(env, defs, n, d).None?
    decreases d
  {
    if d > 0 {
      CircularUnresolved(env, defs, c, defs[n].encryptedBy.value, d - 1);
    }
  }

  /** A secret whose key is resolved opens with it; a root loads. */
  ghost predicate StepSucceeds(env: Env, defs: map<string, Def>, n: string)
    requires n in defs
  {
    match defs[n].encryptedBy
    case None => Loaded(env, n, defs[n]).Some?
    case Some(k) => Resolvable(env, defs, k) ==> Opened(env, n, defs[n], ValueOf(env, defs, k)).Some?
  }

  lemma ResolvableSteps(env: Env, defs: map<string, Def>, n: string)
    requires n in defs
    ensures Resolvable(env, defs, n) <==>
              && (defs[n].encryptedBy.Some? ==> Resolvable(env, defs, defs[n].encryptedBy.value))
              && StepSucceeds(env, defs, n)
    ensures Resolvable(env, defs, n) && defs[n].encryptedBy.Some? ==>
              Some(ValueOf(env, defs, n)) == Opened(env, n, defs[n], ValueOf(env, defs, defs[n].encryptedBy.value))
    ensures Resolvable(env, defs, n) && defs[n].encryptedBy.None? ==>
            Some(ValueOf(env, defs, n)) == Loaded(env, n, defs[n])
  {
    match defs[n].encryptedBy
    case None =>
      assert Resolve(env, defs, n, 1) == Loaded(env, n, defs[n]);
      if Loaded(env, n, defs[n]).Some? {
        ValueIs(env, defs, n, 1);
      }
    case Some(k) =>
      if Resolvable(env, defs, n) {
        var d: nat :| Resolve(env, defs, n, d).Some?;
        ValueIs(env, defs, n, d);
        ValueIs(env, defs, k, d - 1);
      }
      if Resolvable(env, defs, k) && StepSucceeds(env, defs, n) {
        var d: nat :| Resolve(env, defs, k, d).Some?;
        ValueIs(env, defs, k, d);
        assert Resolve(env, defs, n, d + 1).Some?;
      }
  }

  /** Resolution succeeds exactly when every key reference exists, no set of secrets is circular, and
      every load, decoding and decryption succeeds. */
  lemma SucceedsExactly(env: Env, defs: map<string, Def>)
    ensures Resolution(env, defs).Some? <==>
              RefsExist(defs) && (forall c :: !Circular(defs, c)) && forall n | n in defs :: StepSucceeds(env, defs, n)
  {
    if forall n | n in defs :: Resolvable(env, defs, n) {
      forall n | n in defs ensures StepSucceeds(env, defs, n)
          && (defs[n].encryptedBy.Some? ==> defs[n].encryptedBy.value in defs) {
        ResolvableSteps(env, defs, n);
      }
      forall c ensures !Circular(defs, c) {
        if Circular(defs, c) {
          var n :| n in c;
          var d: nat :| Resolve(env, defs, n, d).Some?;
          CircularUnresolved(env, defs, c, n, d);
          assert false;
        }
      }
    } else if RefsExist(defs) && forall n | n in defs :: StepSucceeds(env, defs, n) {
      var c := set n | n in defs && !Resolvable(env, defs, n);
      forall n | n in c ensures defs[n].encryptedBy.Some? && defs[n].encryptedBy.value in c {
        ResolvableSteps(env, defs, n);
      }
      assert Circular(defs, c);
    }
  }

  // ----- a circular set really contains a cycle -----

  /** Following the key references i times. */
  ghost function Ancestor(defs: map<string, Def>, c: set<string>, n: string, i: nat): (r: string)
    requires Circular(defs, c) && n in c
    ensures r in c
  {
    if i == 0 then n else defs[Ancestor(defs, c, n, i - 1)].encryptedBy.value
  }

  lemma {:induction false} Pigeonhole(s: seq<string>, c: set<string>)
    requires |s| > |c| && forall x | x in s :: x in c
    ensures exists i, j :: 0 <= i < j < |s| && s[i] == s[j]
    decreases |s|
  {
    var k := |s| - 1;
    if s[k] in s[..k] {
      var i :| 0 <= i < k && s[..k][i] == s[k];
      assert s[i] == s[k];
    } else {
      assert s[k] in s;
      Pigeonhole(s[..k], c - {s[k]});
      var i, j :| 0 <= i < j < k && s[..k][i] == s[..k][j];
      assert s[i] == s[j];
    }
  }

  lemma {:induction false} AncestorShift(defs: map<string, Def>, c: set<string>, n: string, i: nat, j: nat)
    requires Circular(defs, c) && n in c
    ensures Ancestor(defs, c, Ancestor(defs, c, n, i), j) == Ancestor(defs, c, n, i + j)
    decreases j
  {
    if j > 0 {
      AncestorShift(defs, c, n, i, j - 1);
    }
  }

  lemma CircularHasCycle(defs: map<string, Def>, c: set<string>)
    requires Circular(defs, c)
    ensures exists n: string, i: nat :: n in c && i > 0 && Ancestor(defs, c, n, i) == n
  {
    var n :| n in c;
    var walk := seq(|c| + 1, i requires 0 <= i <= |c| => Ancestor(defs, c, n, i));
    Pigeonhole(walk, c);
    var i, j :| 0 <= i < j < |walk| && walk[i] == walk[j];
    var m := Ancestor(defs, c, n, i);
    AncestorShift(defs, c, n, i, j - i);
    assert Ancestor(defs, c, m, j - i) == m;
  }
}
