/**
 * `createNotification`: the given properties merged over defaults for
 * `name` and `id`. Properties with integer keys are not modelled, so the
 * array is a map from string keys.
 */
module EmailNotificationService {

  import opened PhpValues

  /** `$props[$k] ?? $default`: the value when the key is set and not null. */
  function Coalesce(props: map<string, Value>, k: string, default: Value): Value
  {
    if k in props && props[k] != Null then props[k] else default
  }

  /** `array_merge(defaults, $props)`: later string keys override earlier ones. */
  function CreateNotification(props: map<string, Value>): (r: map<string, Value>)
    ensures r.Keys == props.Keys + {"name", "id"}
    ensures forall k :: k in props ==> r[k] == props[k]
    ensures "name" !in props ==> r["name"] == Str("")
    ensures "id" !in props ==> r["id"] == Coalesce(props, "name", Str(""))
  {
    var defaults := map["name" := Coalesce(props, "name", Str("")),
                        "id" := Coalesce(props, "id", Coalesce(props, "name", Str("")))];
    defaults + props
  }

  /** An explicit null in the properties survives the merge. */
  lemma ExplicitNullKept(props: map<string, Value>)
    requires "id" in props && props["id"] == Null
    ensures CreateNotification(props)["id"] == Null
  {
  }

  /** Merging the result again changes nothing. */
  lemma CreateIdempotent(props: map<string, Value>)
    ensures CreateNotification(CreateNotification(props)) == CreateNotification(props)
  {
  }
}
