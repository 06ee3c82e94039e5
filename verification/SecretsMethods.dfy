/** The loop that resolves secrets in passes, in whatever order they are listed. */
module SecretsMethods {
  import opened Codec
  import opened Secrets

  datatype Attempt = Failed | Waits | Ready(bytes: seq<byte>)

  /** Resolves one secret if its key, if any, is resolved. */
  function MaybeResolve(env: Env, name: string, def: Def, resolved: map<string, seq<byte>>): Attempt {
    if def.encryptedBy.Some? && def.encryptedBy.value !in resolved then Waits
    else
      var value := if def.encryptedBy.None? then Loaded(env, name, def)
                   else Opened(env, name, def, resolved[def.encryptedBy.value]);
      if value.None? then Failed else Ready(value.value)
  }

  predicate Distinct(s: seq<string>) {
    forall i, j :: 0 <= i < j < |s| ==> s[i] != s[j]
  }

  /** What has been resolved has its value, and was loaded once. */
  ghost predicate Sound(env: Env, defs: map<string, Def>, resolved: map<string, seq<byte>>, loads: seq<string>) {
    && (forall n | n in resolved :: n in defs && Resolvable(env, defs, n) && ValueOf(env, defs, n) == resolved[n])
    && Distinct(loads) && (forall n :: n in loads <==> n in resolved)
  }

  /** The rest of the secrets, each once. */
  ghost predicate Rest(defs: map<string, Def>, resolved: map<string, seq<byte>>, remaining: seq<string>) {
    Distinct(remaining) && forall n :: n in remaining <==> n in defs && n !in resolved
  }

  lemma SoundLoads(env: Env, defs: map<string, Def>, resolved: map<string, seq<byte>>, loads: seq<string>)
    requires Sound(env, defs, resolved, loads)
    ensures Distinct(loads) && (forall n | n in resolved :: n in defs) && (forall n :: n in loads <==> n in resolved)
  {
  }

  lemma AttemptSound(env: Env, defs: map<string, Def>, resolved: map<string, seq<byte>>, loads: seq<string>, n: string)
    requires Sound(env, defs, resolved, loads) && n in defs && n !in resolved
    ensures var a := MaybeResolve(env, n, defs[n], resolved);
            && (a.Failed? ==> !Resolvable(env, defs, n))
            && (a.Ready? ==> Sound(env, defs, resolved[n := a.bytes], loads + [n]))
  {
    ResolvableSteps(env, defs, n);
    hide Loaded, Opened, Resolvable, ValueOf;
  }

  /** If a pass resolves nothing, the rest is circular. */
  lemma StuckIsCircular(defs: map<string, Def>, resolved: map<string, seq<byte>>, remaining: seq<string>)
    requires RefsExist(defs) && Rest(defs, resolved, remaining) && remaining != []
    requires forall n | n in remaining ::
              n in defs && defs[n].encryptedBy.Some? && defs[n].encryptedBy.value !in resolved
    ensures exists c :: Circular(defs, c)
  {
    hide Distinct;
    var c := set n | n in remaining;
    assert remaining[0] in c;
    forall n | n in c ensures n in defs && defs[n].encryptedBy.Some? && defs[n].encryptedBy.value in c {
      assert n in remaining;
      assert defs[n].encryptedBy.value in defs;
      assert defs[n].encryptedBy.value in remaining;
    }
    assert Circular(defs, c);
  }

  method CheckReferences(defs: map<string, Def>, order: seq<string>) returns (ok: bool)
    requires forall n :: n in order <==> n in defs
    ensures ok <==> RefsExist(defs)
  {
    for i := 0 to |order|
      invariant forall n | n in order[..i] ::
                 n in defs && (defs[n].encryptedBy.Some? ==> defs[n].encryptedBy.value in defs)
    {
      var n := order[i];
      assert n in order;
      if defs[n].encryptedBy.Some? && defs[n].encryptedBy.value !in defs {
        return false;
      }
    }
    assert order[..|order|] == order;
    ok := true;
  }

  /** One pass over the rest; false if some secret cannot be resolved at all. */
  method Pass(env: Env, defs: map<string, Def>, remaining: seq<string>, resolved0: map<string, seq<byte>>,
              loads0: seq<string>)
    returns (ok: bool, resolved: map<string, seq<byte>>, loads: seq<string>, updated: seq<string>)
    requires Sound(env, defs, resolved0, loads0) && Rest(defs, resolved0, remaining)
    ensures !ok ==> exists n :: n in defs && !Resolvable(env, defs, n)
    ensures Distinct(loads) && forall n | n in loads :: n in defs
    ensures ok ==> Sound(env, defs, resolved, loads) && Rest(defs, resolved, updated) && |updated| <= |remaining|
    ensures ok && |updated| == |remaining| ==>
              forall n | n in remaining :: n in defs && defs[n].encryptedBy.Some?
                  && defs[n].encryptedBy.value !in resolved0
  {
    hide Resolvable, ValueOf, Loaded, Opened, Sound;
    resolved, loads, updated := resolved0, loads0, [];
    for i := 0 to |remaining|
      invariant Sound(env, defs, resolved, loads) && |updated| <= i
      invariant Distinct(updated) && forall n :: n in updated <==> n in remaining[..i] && n !in resolved
      invariant forall n :: n in resolved ==> n in resolved0 || n in remaining[..i]
      invariant forall n | n in resolved0 :: n in resolved
      invariant |updated| == i ==> resolved == resolved0 && forall n | n in remaining[..i] ::
                  n in defs && defs[n].encryptedBy.Some? && defs[n].encryptedBy.value !in resolved0
    {
      var n := remaining[i];
      assert n in remaining && n !in remaining[..i];
      assert remaining[..i + 1] == remaining[..i] + [n];
      AttemptSound(env, defs, resolved, loads, n);
      match MaybeResolve(env, n, defs[n], resolved) {
        case Failed =>
          SoundLoads(env, defs, resolved, loads);
          loads := loads + [n];
          ok := false;
          return;
        case Waits =>
          updated := updated + [n];
        case Ready(bytes) =>
          resolved := resolved[n := bytes];
          loads := loads + [n];
      }
    }
    assert remaining[..|remaining|] == remaining;
    SoundLoads(env, defs, resolved, loads);
    ok := true;
  }

  /** The order in which the secrets are listed does not matter: the result is the resolution. Each
      source is loaded at most once, also if its decoding or decryption then fails; and exactly once if
      all are resolved. */
  method ResolveSecrets(env: Env, defs: map<string, Def>, order: seq<string>)
    returns (r: Option<map<string, seq<byte>>>, loads: seq<string>)
    requires Distinct(order) && forall n :: n in order <==> n in defs
    ensures r == Resolution(env, defs)
    ensures Distinct(loads) && (forall n | n in loads :: n in defs) && (r.Some? ==> forall n | n in defs :: n in loads)
  {
    loads := [];
    SucceedsExactly(env, defs);
    hide Resolvable, ValueOf, Loaded, Opened, StepSucceeds;
    var refs := CheckReferences(defs, order);
    if !refs {
      return None, [];
    }
    var resolved: map<string, seq<byte>> := map[];
    var remaining := order;
    while |resolved| < |defs|
      invariant Sound(env, defs, resolved, loads) && Rest(defs, resolved, remaining)
      decreases |remaining|
    {
      RestSize(defs, resolved, remaining);
      var ok, next, more, updated := Pass(env, defs, remaining, resolved, loads);
      loads := more;
      if !ok {
        return None, loads;
      }
      if |updated| == |remaining| {
        StuckIsCircular(defs, resolved, remaining);
        return None, loads;
      }
      resolved, remaining := next, updated;
    }
    AllResolved(env, defs, resolved, loads);
    SoundLoads(env, defs, resolved, loads);
    r := Some(resolved);
  }

  lemma RestSize(defs: map<string, Def>, resolved: map<string, seq<byte>>, remaining: seq<string>)
    requires Rest(defs, resolved, remaining) && |resolved| < |defs|
    ensures remaining != []
  {
    if remaining == [] {
      assert forall n | n in defs.Keys :: n in resolved.Keys;
      Smaller(defs.Keys, resolved.Keys);
      assert false;
    }
  }

  lemma {:induction false} Smaller(a: set<string>, b: set<string>)
    requires a <= b
    ensures |a| <= |b| && (|a| == |b| ==> a == b)
    decreases |a|
  {
    if a != {} {
      var x :| x in a;
      Smaller(a - {x}, b - {x});
      assert a == a - {x} + {x} && b == b - {x} + {x};
    } else if |b| == 0 {
      assert b == {};
    }
  }

  lemma AllResolved(env: Env, defs: map<string, Def>, resolved: map<string, seq<byte>>, loads: seq<string>)
    requires Sound(env, defs, resolved, loads) && |resolved| >= |defs|
    ensures Resolution(env, defs) == Some(resolved) && forall n | n in defs :: n in resolved
  {
    hide Resolvable, ValueOf;
    Smaller(resolved.Keys, defs.Keys);
    assert resolved.Keys == defs.Keys;
    assert resolved == map n | n in defs :: ValueOf(env, defs, n);
  }
}
