/** Environment compatibility: what may share one process, and what it says about credentials. */
module Environments {
  import opened Options

  type Env = map<string, string>

  /** The key classes of the environment identity; every credential key is an identity key. */
  datatype Rules = Rules(transient: string -> bool, identity: string -> bool, credential: string -> bool)

  ghost predicate Lawful(rules: Rules) {
    forall key :: rules.credential(key) ==> rules.identity(key)
  }

  predicate Counts(rules: Rules, key: string) {
    !rules.transient(key) && rules.identity(key)
  }

  predicate Secret(rules: Rules, key: string) {
    !rules.transient(key) && rules.identity(key) && rules.credential(key)
  }

  /** No identity key has two values, and credentials are present on both sides or on neither. */
  ghost predicate Compatible(rules: Rules, a: Env, b: Env) {
    forall key :: Counts(rules, key) ==>
      && (key in a && key in b ==> a[key] == b[key])
      && (Secret(rules, key) ==> (key in a <==> key in b))
  }

  method EnvCompatible(rules: Rules, a: Env, b: Env) returns (ok: bool)
    ensures ok <==> Compatible(rules, a, b)
  {
    var todo := a.Keys;
    while todo != {}
      invariant todo <= a.Keys
      invariant forall key :: key in a.Keys - todo && Counts(rules, key) ==>
                  if key in b then a[key] == b[key] else !Secret(rules, key)
    {
      var key :| key in todo;
      todo := todo - {key};
      if rules.transient(key) || !rules.identity(key) {
        continue;
      }
      if key !in b {
        if rules.credential(key) {
          assert Counts(rules, key) && Secret(rules, key);
          return false;
        }
        continue;
      }
      if a[key] != b[key] {
        assert Counts(rules, key);
        return false;
      }
    }
    todo := b.Keys;
    while todo != {}
      invariant todo <= b.Keys
      invariant forall key :: key in b.Keys - todo && Counts(rules, key) ==> key in a || !Secret(rules, key)
    {
      var key :| key in todo;
      todo := todo - {key};
      if rules.transient(key) || !rules.identity(key) {
        continue;
      }
      if key !in a && rules.credential(key) {
        assert Counts(rules, key) && Secret(rules, key);
        return false;
      }
    }
    return true;
  }

  /**
   Two requests compatible with one stored environment carry the same credentials, though they need
   not be compatible themselves.
   */
  lemma CredentialsAgree(rules: Rules, stored: Env, a: Env, b: Env, key: string)
    requires Compatible(rules, stored, a) && Compatible(rules, stored, b) && Secret(rules, key)
    ensures (key in a <==> key in b) && (key in a ==> a[key] == b[key])
  {
    assert Counts(rules, key);
  }

  /** A missing stored environment reads as an empty one, which fits exactly the requests without credentials. */
  lemma EmptyFitsExactly(rules: Rules, request: Env)
    ensures Compatible(rules, map[], request) <==> forall key :: key in request ==> !Secret(rules, key)
  {
    if forall key :: key in request ==> !Secret(rules, key) {
      forall key | Counts(rules, key)
        ensures Secret(rules, key) ==> key !in request
      {
      }
    } else {
      var key :| key in request && Secret(rules, key);
      assert Counts(rules, key);
    }
  }

  /** A missing stored environment reads as an empty one. */
  function StoredEnv(env: Option<Env>): Env {
    if env.Some? then env.value else map[]
  }
}
