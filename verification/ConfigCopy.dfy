/** The generated deep copies of an application configuration and of a component configuration. */
module ConfigCopy {
  import opened Sequences
  import opened Wrappers
  import opened DeepCopy

  datatype Registry = Registry(name: string, repo: string, version: string, path: string, regUri: string)
  datatype Package = Package(name: string, registry: string)
  datatype Parameter = Parameter(component: string, name: string, value: string)
  datatype NameValue = NameValue(name: string, value: string)

  ghost function Contents<T>(a: array?<T>): Option<seq<T>>
    reads a
  {
    if a == null then None else Some(a[..])
  }

  method CopySlice<T>(from: array?<T>) returns (out: array?<T>)
    ensures out != null ==> fresh(out)
    ensures Contents(out) == Contents(from)
  {
    out := null;
    if from != null {
      out := new T[from.Length](i requires 0 <= i < from.Length reads from => from[i]);
      assert out[..] == from[..];
    }
  }

  // ---------- application configurations

  datatype App = App(registries: Option<seq<Option<Registry>>>, packages: Option<seq<Package>>,
                     components: Option<seq<Component>>, parameters: Option<seq<Parameter>>,
                     applyParameters: Option<seq<Parameter>>)

  class AppConfig {
    var registries: array?<Cell?<Registry>>
    var packages: array?<Package>
    var components: array?<Component>
    var parameters: array?<Parameter>
    var applyParameters: array?<Parameter>

    ghost predicate ShowsSlices(v: App)
      reads this, packages, components, parameters, applyParameters
    {
      && Contents(packages) == v.packages
      && Contents(components) == v.components
      && Contents(parameters) == v.parameters
      && Contents(applyParameters) == v.applyParameters
    }

    /** out shows the same configuration through cells and slices of its own; nothing else was written. */
    method DeepCopyInto(out: AppConfig, ghost v: App, ghost cells: seq<object>) returns (ghost made: seq<object>)
      requires SliceAt(registries, v.registries, cells) && ShowsSlices(v) && out != this
      modifies out
      ensures SliceAt(out.registries, v.registries, made) && fresh(made) && Distinct(made)
      ensures out.ShowsSlices(v)
      ensures out.packages != null ==> fresh(out.packages)
      ensures out.components != null ==> fresh(out.components)
      ensures out.parameters != null ==> fresh(out.parameters)
      ensures out.applyParameters != null ==> fresh(out.applyParameters)
      ensures out.parameters != null ==> out.parameters != out.applyParameters
    {
      var copies;
      copies, made := CopyPointers(registries, v.registries, cells);
      CopySlicesInto(out, v);
      out.registries := copies;
    }

    method CopySlicesInto(out: AppConfig, ghost v: App)
      requires ShowsSlices(v) && out != this
      modifies out
      ensures out.ShowsSlices(v) && ShowsSlices(v)
      ensures out.packages != null ==> fresh(out.packages)
      ensures out.components != null ==> fresh(out.components)
      ensures out.parameters != null ==> fresh(out.parameters)
      ensures out.applyParameters != null ==> fresh(out.applyParameters)
      ensures out.parameters != null ==> out.parameters != out.applyParameters
    {
      var packages := CopySlice(packages);
      var components := CopySlice(components);
      var parameters := CopySlice(parameters);
      var applyParameters := CopySlice(applyParameters);
      out.packages, out.components, out.parameters, out.applyParameters :=
        packages, components, parameters, applyParameters;
    }
  }

  // ---------- component configurations

  /** A Go map from component names to their parameters, and what it shows. */
  class ParameterMap {
    var entries: map<string, array?<NameValue>>

    constructor ()
      ensures entries == map[]
    {
      entries := map[];
    }

    ghost function Lists(): set<array?<NameValue>>
      reads this
    {
      entries.Values - {null}
    }

    /** No list is kept under two keys. */
    ghost predicate Unshared()
      reads this
    {
      forall k, l | k in entries && l in entries && k != l && entries[k] != null :: entries[k] != entries[l]
    }
  }

  ghost function Parameters(p: ParameterMap?): Option<map<string, Option<seq<NameValue>>>>
    reads p, if p == null then {} else p.Lists()
  {
    if p == null then None else Some(map k | k in p.entries :: Contents(p.entries[k]))
  }

  method CopyParameters(from: ParameterMap?) returns (out: ParameterMap?)
    ensures out != null ==> fresh(out) && fresh(out.Lists()) && out.Unshared()
    ensures Parameters(out) == Parameters(from)
  {
    out := null;
    if from != null {
      out := new ParameterMap();
      var left := from.entries.Keys;
      while left != {}
        invariant left <= from.entries.Keys && out.entries.Keys == from.entries.Keys - left
        invariant forall k | k in out.entries :: Contents(out.entries[k]) == Contents(from.entries[k])
        invariant fresh(out) && out.Unshared()
        invariant forall k | k in out.entries && out.entries[k] != null :: fresh(out.entries[k])
      {
        var key :| key in left;
        var list := CopySlice(from.entries[key]);
        out.entries := out.entries[key := list];
        left := left - {key};
      }
      assert Parameters(out).value == Parameters(from).value;
    }
  }

  class ComponentConfig {
    var repo: string
    var components: array?<string>
    var packages: array?<string>
    var componentParams: ParameterMap?
    var platform: string

    /** out shows the same configuration through slices and a map of its own, lists included; a nil list stays
        nil under its key.  Nothing else was written. */
    method DeepCopyInto(out: ComponentConfig)
      requires out != this
      modifies out
      ensures out.repo == repo && out.platform == platform
      ensures Contents(out.components) == Contents(components)
      ensures Contents(out.packages) == Contents(packages)
      ensures Parameters(out.componentParams) == Parameters(componentParams)
      ensures out.components != null ==> fresh(out.components) && out.components != out.packages
      ensures out.packages != null ==> fresh(out.packages)
      ensures out.componentParams != null ==>
                fresh(out.componentParams) && fresh(out.componentParams.Lists()) && out.componentParams.Unshared()
    {
      CopySlicesInto(out);
      var copies := CopyParameters(componentParams);
      // None of the lists is the object about to be written.
      assert componentParams != null ==> forall a: object | a in componentParams.Lists() :: a != out;
      assert copies != null ==> forall a: object | a in copies.Lists() :: a != out;
      out.componentParams := copies;
    }

    method CopySlicesInto(out: ComponentConfig)
      requires out != this
      modifies out
      ensures out.repo == repo && out.platform == platform
      ensures Contents(out.components) == Contents(components)
      ensures Contents(out.packages) == Contents(packages)
      ensures out.components != null ==> fresh(out.components) && out.components != out.packages
      ensures out.packages != null ==> fresh(out.packages)
    {
      var components := CopySlice(components);
      var packages := CopySlice(packages);
      out.repo, out.platform, out.components, out.packages := repo, platform, components, packages;
    }
  }
}
