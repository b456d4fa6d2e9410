/**
 * Option defaulting (`getDefaults`): the caller's option bag is split into
 * the three namespaces the library reads (`needle`, `retry`, `needleRetry`),
 * each shallow-merged over its defaults with the caller's keys winning.
 */
module Options {
  import opened Js

  /** One namespace of options: a plain object's own fields. */
  type Namespace = map<string, Value>

  /** The object `getDefaults` returns. */
  datatype Config = Config(needle: Namespace, retry: Namespace, needleRetry: Namespace)

  const FollowMax := 20
  const Retries := 5

  /** The three namespace names; every other top-level key is ignored. */
  const NamespaceKeys: set<string> := {"needle", "retry", "needleRetry"}

  /** The defaults: at most 20 redirects followed, 5 retries, no document check. */
  function Defaults(): (d: Config)
    ensures d.needle == map["follow_max" := Number(20)]
    ensures RetryBudget(d) == 5 && !FullDocument(d)
  {
    Config(
      map["follow_max" := Number(FollowMax)],
      map["retries" := Number(Retries)],
      map["fullDocument" := Bool(false)])
  }

  /**
   * `R.merge(base, user)`: a shallow merge in which the user's own keys win.
   * A user value that is not an object contributes no keys.
   */
  function Merge(base: Namespace, user: Value): (r: Namespace)
    ensures forall k :: k in r <==> k in base || (user.Object? && k in user.fields)
    ensures forall k :: k in r && user.Object? && k in user.fields ==> r[k] == user.fields[k]
    ensures forall k :: k in r && !(user.Object? && k in user.fields) ==> r[k] == base[k]
  {
    if user.Object? then base + user.fields else base
  }

  /** `getDefaults(options)`. */
  function GetDefaults(options: Value): (r: Config)
    ensures !Truthy(options) ==> r == Defaults()
    ensures Truthy(options) ==> r == Config(
      Merge(Defaults().needle, Prop(options, "needle")),
      Merge(Defaults().retry, Prop(options, "retry")),
      Merge(Defaults().needleRetry, Prop(options, "needleRetry")))
    ensures r.needle.Keys >= Defaults().needle.Keys
    ensures r.retry.Keys >= Defaults().retry.Keys
    ensures r.needleRetry.Keys >= Defaults().needleRetry.Keys
  {
    if !Truthy(options) then Defaults()
    else
      Config(
        Merge(Defaults().needle, Prop(options, "needle")),
        Merge(Defaults().retry, Prop(options, "retry")),
        Merge(Defaults().needleRetry, Prop(options, "needleRetry")))
  }

  /** The configuration read back as the JavaScript object it is. */
  function ConfigValue(c: Config): Value {
    Object(map["needle" := Object(c.needle), "retry" := Object(c.retry), "needleRetry" := Object(c.needleRetry)])
  }

  /** `options.needleRetry.fullDocument`, read as a condition. */
  predicate FullDocument(c: Config)
    ensures FullDocument(c) <==> "fullDocument" in c.needleRetry && Truthy(c.needleRetry["fullDocument"])
  {
    Truthy(Prop(Object(c.needleRetry), "fullDocument"))
  }

  /**
   * The number of retries after the first attempt that the retry library is
   * given: `options.retry.retries` when it is a non-negative number, none otherwise.
   */
  function RetryBudget(c: Config): (r: nat)
    ensures ("retries" in c.retry && c.retry["retries"].Number? && c.retry["retries"].n >= 0) ==>
      r == c.retry["retries"].n
    ensures !("retries" in c.retry && c.retry["retries"].Number? && c.retry["retries"].n >= 0) ==> r == 0
  {
    match Prop(Object(c.retry), "retries")
    case Number(n) => if n >= 0 then n else 0
    case _ => 0
  }

  /** Without options the result is exactly the three documented defaults. */
  lemma NoOptionsGiveDefaults(options: Value)
    requires !Truthy(options)
    ensures GetDefaults(options).needle == map["follow_max" := Number(20)]
    ensures GetDefaults(options).retry == map["retries" := Number(5)]
    ensures GetDefaults(options).needleRetry == map["fullDocument" := Bool(false)]
    ensures RetryBudget(GetDefaults(options)) == 5 && !FullDocument(GetDefaults(options))
  {
  }

  /** In each namespace a key the caller gives wins; any other key keeps its default. */
  lemma UserKeysWin(options: Value, k: string)
    requires Truthy(options)
    ensures var user := Prop(options, "needle");
      k in GetDefaults(options).needle <==> k in Defaults().needle || (user.Object? && k in user.fields)
    ensures var user := Prop(options, "needle");
      user.Object? && k in user.fields ==> GetDefaults(options).needle[k] == user.fields[k]
    ensures var user := Prop(options, "needle");
      k in Defaults().needle && !(user.Object? && k in user.fields) ==> GetDefaults(options).needle[k] == Defaults().needle[k]
    ensures var user := Prop(options, "retry");
      k in GetDefaults(options).retry <==> k in Defaults().retry || (user.Object? && k in user.fields)
    ensures var user := Prop(options, "retry");
      user.Object? && k in user.fields ==> GetDefaults(options).retry[k] == user.fields[k]
    ensures var user := Prop(options, "retry");
      k in Defaults().retry && !(user.Object? && k in user.fields) ==> GetDefaults(options).retry[k] == Defaults().retry[k]
    ensures var user := Prop(options, "needleRetry");
      k in GetDefaults(options).needleRetry <==> k in Defaults().needleRetry || (user.Object? && k in user.fields)
    ensures var user := Prop(options, "needleRetry");
      user.Object? && k in user.fields ==> GetDefaults(options).needleRetry[k] == user.fields[k]
    ensures var user := Prop(options, "needleRetry");
      k in Defaults().needleRetry && !(user.Object? && k in user.fields) ==>
        GetDefaults(options).needleRetry[k] == Defaults().needleRetry[k]
  {
  }

  /** Top-level keys other than the three namespaces make no difference. */
  lemma OtherKeysDropped(fields: map<string, Value>)
    ensures GetDefaults(Object(fields)) == GetDefaults(Object(map k | k in fields && k in NamespaceKeys :: fields[k]))
  {
    var kept := Object(map k | k in fields && k in NamespaceKeys :: fields[k]);
    assert Prop(Object(fields), "needle") == Prop(kept, "needle");
    assert Prop(Object(fields), "retry") == Prop(kept, "retry");
    assert Prop(Object(fields), "needleRetry") == Prop(kept, "needleRetry");
  }

  /** An empty option object is the same as no options. */
  lemma EmptyOptionsGiveDefaults()
    ensures GetDefaults(Object(map[])) == Defaults()
  {
    assert Defaults().needle + map[] == Defaults().needle;
    assert Defaults().retry + map[] == Defaults().retry;
    assert Defaults().needleRetry + map[] == Defaults().needleRetry;
  }

  /** Merging over a namespace that already holds every default key gives that namespace back. */
  lemma MergeAbsorbs(base: Namespace, merged: Namespace)
    requires base.Keys <= merged.Keys
    ensures Merge(base, Object(merged)) == merged
  {
    assert base + merged == merged;
  }

  /** Defaulting an already defaulted configuration changes nothing. */
  lemma GetDefaultsIdempotent(options: Value)
    ensures GetDefaults(ConfigValue(GetDefaults(options))) == GetDefaults(options)
  {
    var c := GetDefaults(options);
    var v := ConfigValue(c);
    assert Truthy(v);
    assert Prop(v, "needle") == Object(c.needle);
    assert Prop(v, "retry") == Object(c.retry);
    assert Prop(v, "needleRetry") == Object(c.needleRetry);
    MergeAbsorbs(Defaults().needle, c.needle);
    MergeAbsorbs(Defaults().retry, c.retry);
    MergeAbsorbs(Defaults().needleRetry, c.needleRetry);
  }

  /** The document check is on exactly when the caller's `needleRetry.fullDocument` is truthy. */
  lemma FullDocumentFollowsCaller(options: Value)
    ensures FullDocument(GetDefaults(options)) == Truthy(Prop(Prop(options, "needleRetry"), "fullDocument"))
  {
  }
}
