/** `simple_getuser`: the login name taken from the environment, for
    platforms without the `pwd` module. The environment is passed in. */
module SystemUtils {
  import opened Wrappers

  /** The variables consulted, in this order. */
  const UserVariables: seq<string> := ["LOGNAME", "USER", "LNAME", "USERNAME"]

  /** The fallback name, the default iOS user. */
  const DefaultUser := "mobile"

  /** `env.get(name)` is truthy: set and not the empty string. */
  predicate IsSetIn(env: map<string, string>, name: string) {
    name in env && env[name] != ""
  }

  /** The value of the first of `names` that is set to non-empty text. */
  function FirstSet(names: seq<string>, env: map<string, string>): (r: Option<string>)
    ensures r.Some? ==> r.value != "" && exists k :: 0 <= k < |names| && IsSetIn(env, names[k]) && env[names[k]] == r.value
    ensures r.None? <==> forall k :: 0 <= k < |names| ==> !IsSetIn(env, names[k])
    decreases |names|
  {
    if |names| == 0 then None
    else if IsSetIn(env, names[0]) then Some(env[names[0]])
    else
      var r := FirstSet(names[1..], env);
      assert forall k :: 1 <= k < |names| ==> names[k] == names[1..][k - 1];
      r
  }

  /** `simple_getuser()` */
  function SimpleGetuser(env: map<string, string>): (user: string)
    ensures user != ""
    ensures (forall k :: 0 <= k < |UserVariables| ==> !IsSetIn(env, UserVariables[k])) ==> user == DefaultUser
  {
    match FirstSet(UserVariables, env)
    case Some(v) => v
    case None => DefaultUser
  }

  /** The search stops at the first variable that is set and non-empty,
      whatever the later ones hold. */
  lemma {:induction false} FirstSetIsFirst(names: seq<string>, env: map<string, string>, k: int)
    requires 0 <= k < |names| && IsSetIn(env, names[k])
    requires forall j :: 0 <= j < k ==> !IsSetIn(env, names[j])
    ensures FirstSet(names, env) == Some(env[names[k]])
    decreases k
  {
    if k > 0 {
      FirstSetIsFirst(names[1..], env, k - 1);
    }
  }

  /** The user name is the value of the first of LOGNAME, USER, LNAME and
      USERNAME that is set to non-empty text; empty values are skipped. */
  lemma {:induction false} SimpleGetuserPicksFirst(env: map<string, string>, k: int)
    requires 0 <= k < |UserVariables| && IsSetIn(env, UserVariables[k])
    requires forall j :: 0 <= j < k ==> !IsSetIn(env, UserVariables[j])
    ensures SimpleGetuser(env) == env[UserVariables[k]]
  {
    FirstSetIsFirst(UserVariables, env, k);
  }
}
