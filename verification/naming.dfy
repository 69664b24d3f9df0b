/** Composition of a namespace and an object name into the store's key. */
module Naming {
  import opened Wrappers

  /** The reserved character between namespace and name. */
  const Separator: char := '\\'

  /** True when the namespace is Python-falsy: absent or empty. */
  predicate Unqualified(namespace: Option<string>)
  {
    namespace.None? || namespace.value == ""
  }

  /** The store key `namespace\name`, or `name` alone when the namespace is
      absent or empty. The name is never normalised. */
  function Qualify(namespace: Option<string>, name: string): (q: string)
    ensures Unqualified(namespace) ==> q == name
    ensures !Unqualified(namespace) ==>
              && |q| == |namespace.value| + 1 + |name|
              && q[..|namespace.value|] == namespace.value
              && q[|namespace.value|] == Separator
    ensures |name| <= |q| && q[|q| - |name|..] == name
  {
    if Unqualified(namespace) then name else namespace.value + [Separator] + name
  }

  /** The name back from a key, given the namespace it was qualified with;
      `None` when the key does not carry that namespace. */
  function Unqualify(namespace: Option<string>, key: string): (r: Option<string>)
    ensures r.Some? ==> |r.value| <= |key|
  {
    if Unqualified(namespace) then
      Some(key)
    else
      var n := |namespace.value|;
      if |key| > n && key[..n] == namespace.value && key[n] == Separator then Some(key[n + 1..]) else None
  }

  /** Stripping the namespace recovers the name exactly. */
  lemma UnqualifyQualify(namespace: Option<string>, name: string)
    ensures Unqualify(namespace, Qualify(namespace, name)) == Some(name)
  {
    if !Unqualified(namespace) {
      var q := Qualify(namespace, name);
      assert q[|namespace.value| + 1..] == name;
    }
  }

  /** For a fixed namespace, distinct names give distinct keys. */
  lemma QualifyInjective(namespace: Option<string>, a: string, b: string)
    requires Qualify(namespace, a) == Qualify(namespace, b)
    ensures a == b
  {
    UnqualifyQualify(namespace, a);
    UnqualifyQualify(namespace, b);
  }

  /** An absent and an empty namespace address the same key. */
  lemma AbsentAndEmptyAgree(name: string)
    ensures Qualify(None, name) == Qualify(Some(""), name) == name
  {
  }

  /** Because names may contain the separator, different (namespace, name)
      pairs can share one key; nothing in this core rejects that. */
  lemma SeparatorCollision()
    ensures Qualify(Some("a"), "b\\c") == Qualify(Some("a\\b"), "c") == "a\\b\\c"
  {
  }

  lemma ExampleQualify()
    ensures Qualify(Some("ns"), "x") == "ns\\x"
    ensures Qualify(None, "x") == "x"
  {
  }
}
