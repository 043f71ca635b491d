/** Laying an inline override over a template. */
module Merge {
  import opened Prelude
  import opened Types

  const EMPTY := TemplateSpec("", false, Resources(map[], map[], []), None, None, None, "",
      CacheConfig("", None, None), "")

  predicate SetsResources(r: Resources) {
    |r.limits| > 0 || |r.requests| > 0
  }

  function Merged(lower: Option<TemplateSpec>, upper: Option<TemplateSpec>): TemplateSpec {
    var out := lower.GetOr(EMPTY);
    match upper
    case None => out
    case Some(o) =>
      TemplateSpec(
        if o.image != "" then o.image else out.image,
        o.rootless,
        if SetsResources(o.resources) then o.resources else out.resources,
        if o.nodeSelector.Some? then o.nodeSelector else out.nodeSelector,
        if o.tolerations.Some? then o.tolerations else out.tolerations,
        if o.affinity.Some? then o.affinity else out.affinity,
        if o.toml != "" then o.toml else out.toml,
        if o.cache.kind != "" then o.cache else out.cache,
        if o.arch != "" then o.arch else out.arch)
  }

  /** mergeSpec, overwriting `out` field by field. */
  method MergeSpec(lower: Option<TemplateSpec>, upper: Option<TemplateSpec>) returns (out: TemplateSpec)
    ensures out == Merged(lower, upper)
  {
    out := lower.GetOr(EMPTY);
    if upper.None? {
      return;
    }
    var o := upper.value;
    var image, rootless, resources := out.image, out.rootless, out.resources;
    var nodeSelector, tolerations, affinity := out.nodeSelector, out.tolerations, out.affinity;
    var toml, cache, arch := out.toml, out.cache, out.arch;
    if o.image != "" {
      image := o.image;
    }
    rootless := o.rootless;
    if |o.resources.limits| > 0 || |o.resources.requests| > 0 {
      resources := o.resources;
    }
    if o.nodeSelector.Some? {
      nodeSelector := o.nodeSelector;
    }
    if o.tolerations.Some? {
      tolerations := o.tolerations;
    }
    if o.affinity.Some? {
      affinity := o.affinity;
    }
    if o.toml != "" {
      toml := o.toml;
    }
    if o.cache.kind != "" {
      cache := o.cache;
    }
    if o.arch != "" {
      arch := o.arch;
    }
    out := TemplateSpec(image, rootless, resources, nodeSelector, tolerations, affinity, toml, cache, arch);
  }

  lemma MergeIsAssociative(a: TemplateSpec, b: TemplateSpec, c: TemplateSpec)
    ensures Merged(Some(Merged(Some(a), Some(b))), Some(c)) == Merged(Some(a), Some(Merged(Some(b), Some(c))))
  {
  }

  lemma MergeLaws(a: TemplateSpec, b: TemplateSpec)
    ensures Merged(Some(a), Some(a)) == a
    ensures Merged(Some(a), None) == a
    ensures Merged(Some(Merged(Some(a), Some(b))), Some(b)) == Merged(Some(a), Some(b))
    ensures Merged(Some(a), Some(b)).rootless == b.rootless
  {
  }

  // -- Folding a list of overrides ----------------------------------------------------------

  datatype Field = Image | Rootless | ResourceNeeds | NodeSelector | Tolerations | Affinity | Toml | Cache | Arch

  predicate Sets(o: TemplateSpec, f: Field) {
    match f
    case Image => o.image != ""
    case Rootless => true
    case ResourceNeeds => SetsResources(o.resources)
    case NodeSelector => o.nodeSelector.Some?
    case Tolerations => o.tolerations.Some?
    case Affinity => o.affinity.Some?
    case Toml => o.toml != ""
    case Cache => o.cache.kind != ""
    case Arch => o.arch != ""
  }

  predicate AgreeOn(a: TemplateSpec, b: TemplateSpec, f: Field) {
    match f
    case Image => a.image == b.image
    case Rootless => a.rootless == b.rootless
    case ResourceNeeds => a.resources == b.resources
    case NodeSelector => a.nodeSelector == b.nodeSelector
    case Tolerations => a.tolerations == b.tolerations
    case Affinity => a.affinity == b.affinity
    case Toml => a.toml == b.toml
    case Cache => a.cache == b.cache
    case Arch => a.arch == b.arch
  }

  function Layered(lower: TemplateSpec, uppers: seq<TemplateSpec>): TemplateSpec
    decreases |uppers|
  {
    if uppers == [] then lower
    else Merged(Some(Layered(lower, uppers[..|uppers| - 1])), Some(uppers[|uppers| - 1]))
  }

  /** The last layer that sets `f`, or `lower` when none does. */
  function LastSetter(lower: TemplateSpec, uppers: seq<TemplateSpec>, f: Field): TemplateSpec
    decreases |uppers|
  {
    if uppers == [] then lower
    else if Sets(uppers[|uppers| - 1], f) then uppers[|uppers| - 1]
    else LastSetter(lower, uppers[..|uppers| - 1], f)
  }

  /** Folding overrides takes every field from the last layer that sets it. */
  lemma {:induction false} FoldTakesLastSetter(lower: TemplateSpec, uppers: seq<TemplateSpec>, f: Field)
    ensures AgreeOn(Layered(lower, uppers), LastSetter(lower, uppers, f), f)
    decreases |uppers|
  {
    if uppers != [] {
      FoldTakesLastSetter(lower, uppers[..|uppers| - 1], f);
    }
  }
}
