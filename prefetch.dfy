/**
 * `self.prefetch` of every provider: each declared resource is given the
 * first parsed instance whose name equals the resource's name.
 */
module Prefetch {
  import opened Common

  /** `providers.find { |provider| provider.name == name }`, as an index into `names`. */
  function FirstIndex(names: seq<string>, n: string): (r: Option<nat>)
    ensures r.None? <==> n !in names
    ensures r.Some? ==> r.value < |names| && names[r.value] == n
    ensures r.Some? ==> forall j :: 0 <= j < r.value ==> names[j] != n
  {
    if names == [] then None
    else if names[0] == n then Some(0)
    else match FirstIndex(names[1..], n)
      case None => None
      case Some(k) => Some(k + 1)
  }

  /**
   * The provider each resource of `resources` is given, as an index into the
   * parsed instances' `names`; a resource no instance is named after gets none.
   */
  function Attach(names: seq<string>, resources: set<string>): (m: map<string, nat>)
    ensures forall n :: n in m <==> n in resources && n in names
    ensures forall n :: n in m ==> m[n] < |names| && names[m[n]] == n
    ensures forall n :: n in m ==> forall j :: 0 <= j < m[n] ==> names[j] != n
  {
    map n | n in resources && n in names :: FirstIndex(names, n).value
  }

  /** The names of `instances`, in order, as `name` gives them. */
  function Names<R>(instances: seq<R>, name: R -> string): (names: seq<string>)
    ensures |names| == |instances|
    ensures forall k :: 0 <= k < |instances| ==> names[k] == name(instances[k])
  {
    if instances == [] then [] else [name(instances[0])] + Names(instances[1..], name)
  }

  /** A name is among `names` exactly when some instance has it. */
  lemma NamedIn<R>(instances: seq<R>, name: R -> string, names: seq<string>)
    requires |names| == |instances|
    requires forall k :: 0 <= k < |instances| ==> names[k] == name(instances[k])
    ensures forall n :: n in names <==> exists k :: 0 <= k < |instances| && name(instances[k]) == n
  {
    forall n | n in names
      ensures exists k :: 0 <= k < |instances| && name(instances[k]) == n
    {
      var k :| 0 <= k < |names| && names[k] == n;
      assert name(instances[k]) == n;
    }
  }

  /** The instance at a first index of a name is the first instance with that name. */
  lemma PickedFirst<R>(instances: seq<R>, name: R -> string, names: seq<string>, at: map<string, nat>, m: map<string, R>)
    requires |names| == |instances|
    requires forall k :: 0 <= k < |instances| ==> names[k] == name(instances[k])
    requires forall n :: n in at ==> at[n] < |names| && names[at[n]] == n
    requires forall n :: n in at ==> forall j :: 0 <= j < at[n] ==> names[j] != n
    requires forall n :: n in m ==> n in at && m[n] == instances[at[n]]
    ensures forall n :: n in m ==> name(m[n]) == n && exists k ::
      0 <= k < |instances| && instances[k] == m[n] && forall j :: 0 <= j < k ==> name(instances[j]) != n
  {
    forall n | n in m
      ensures name(m[n]) == n && exists k ::
        0 <= k < |instances| && instances[k] == m[n] && forall j :: 0 <= j < k ==> name(instances[j]) != n
    {
      var k := at[n];
      assert instances[k] == m[n] && forall j :: 0 <= j < k ==> name(instances[j]) != n;
    }
  }

  /**
   * The instance each resource is given, for instances named by `name`: the
   * first instance named after the resource, if there is one.
   */
  function Pick<R>(instances: seq<R>, name: R -> string, resources: set<string>): (m: map<string, R>)
    ensures forall n :: n in m <==> n in resources && exists k :: 0 <= k < |instances| && name(instances[k]) == n
    ensures forall n :: n in m ==> name(m[n]) == n && exists k ::
      0 <= k < |instances| && instances[k] == m[n] && forall j :: 0 <= j < k ==> name(instances[j]) != n
  {
    var names := Names(instances, name);
    NamedIn(instances, name, names);
    var at := Attach(names, resources);
    var m := map n | n in at :: instances[at[n]];
    PickedFirst(instances, name, names, at, m);
    m
  }
}
