/**
 * The `promoteImages` pipeline step: re-tags docker images built for a project
 * and pushes them to an external docker registry.
 *
 * `Validate` is the arguments' own check. `ApplyGuard` is the chain of checks
 * at the top of the step, which reports the first missing argument and stops
 * before any command runs. `PromotePlan` is the sequence of `docker` command
 * lines the step passes to `sh`, one group per image in list order;
 * `IssueCommands` is the loop that issues them and `Apply` the whole step.
 * Whether the cluster is a single node, and the address of the cluster's own
 * registry, are runtime lookups made by code outside this model; they arrive
 * as a `NodeMode` parameter.
 */
module PromoteImages {
  import opened Wrappers
  import opened JavaText

  /** The step's arguments. Every reference may be null (`None`); the list's
      elements may be null as well. */
  datatype Arguments = Arguments(
    tag: JString,
    org: JString,
    toRegistry: JString,
    images: Option<seq<JString>>,
    containerName: JString)

  /** The arguments as the no-argument constructor leaves them. */
  function DefaultArguments(): (a: Arguments)
    ensures IsNullOrEmpty(a.tag) && IsNullOrEmpty(a.org) && IsNullOrEmpty(a.toRegistry)
    ensures a.images == Some([])
    ensures a.containerName == Some("clients")
  {
    Arguments(Some(""), Some(""), Some(""), Some([]), Some("clients"))
  }

  /** `images != null && !images.isEmpty()`. */
  predicate HasImages(images: Option<seq<JString>>)
  {
    images.Some? && |images.value| > 0
  }

  /** The message `validate` returns when the organisation is missing; `self`
      is how the arguments object renders itself. */
  function MissingOrganisationMessage(images: Option<seq<JString>>, self: string): string
  {
    "Cannot promote images " + ListToString(images) + " as missing the dockerOrganisation argument: " + self
  }

  /** The message `validate` returns when the target registry is missing. */
  function MissingRegistryMessage(images: Option<seq<JString>>, self: string): string
  {
    "Cannot promote images " + ListToString(images) + " as missing the promoteToDockerRegistry argument: " + self
  }

  /** `Arguments.validate`: why the step cannot be invoked, or `None` when the
      arguments are valid. Nothing is required when there are no images; the
      organisation is checked before the registry; the tag is not looked at. */
  function Validate(a: Arguments, self: string): (r: Option<string>)
    ensures !HasImages(a.images) ==> r == None
    ensures HasImages(a.images) && IsNullOrEmpty(a.org) ==>
              r == Some(MissingOrganisationMessage(a.images, self))
    ensures HasImages(a.images) && !IsNullOrEmpty(a.org) && IsNullOrEmpty(a.toRegistry) ==>
              r == Some(MissingRegistryMessage(a.images, self))
    ensures r == None <==>
              !HasImages(a.images) || (!IsNullOrEmpty(a.org) && !IsNullOrEmpty(a.toRegistry))
  {
    if HasImages(a.images) then
      if IsNullOrEmpty(a.org) then Some(MissingOrganisationMessage(a.images, self))
      else if IsNullOrEmpty(a.toRegistry) then Some(MissingRegistryMessage(a.images, self))
      else None
    else None
  }

  /** `validate` never inspects the tag. */
  lemma ValidateIgnoresTag(a: Arguments, tag: JString, self: string)
    ensures Validate(a.(tag := tag), self) == Validate(a, self)
  {
  }

  /** The two failure messages of `validate` can always be told apart. */
  lemma {:induction false} ValidateMessagesDiffer(images: Option<seq<JString>>, self: string)
    ensures MissingOrganisationMessage(images, self) != MissingRegistryMessage(images, self)
  {
    var head := "Cannot promote images " + ListToString(images);
    var org := " as missing the dockerOrganisation argument: ";
    var registry := " as missing the promoteToDockerRegistry argument: ";
    var k := |head| + 16;
    assert org[16] == 'd' && registry[16] == 'p';
    assert (head + org + self)[k] == (head + org)[k] == org[16];
    assert (head + registry + self)[k] == (head + registry)[k] == registry[16];
  }

  /** The messages the step reports through `error` before giving up. */
  function NoTagMessage(images: Option<seq<JString>>): string
  {
    "No tag specified for tagImages step for images " + ListToString(images)
  }

  function NoOrganisationMessage(images: Option<seq<JString>>): string
  {
    "Docker Organisation config missing so cannot promote images " + ListToString(images)
  }

  function NoRegistryMessage(images: Option<seq<JString>>): string
  {
    "Promote To Docker Registry config missing so cannot promote images " + ListToString(images)
  }

  /** The guard chain at the top of `apply`: tag, then organisation, then
      target registry; the first one missing is reported. `None`: all present. */
  function ApplyGuard(a: Arguments): (r: Option<string>)
    ensures IsNullOrEmpty(a.tag) ==> r == Some(NoTagMessage(a.images))
    ensures !IsNullOrEmpty(a.tag) && IsNullOrEmpty(a.org) ==> r == Some(NoOrganisationMessage(a.images))
    ensures !IsNullOrEmpty(a.tag) && !IsNullOrEmpty(a.org) && IsNullOrEmpty(a.toRegistry) ==>
              r == Some(NoRegistryMessage(a.images))
    ensures r == None <==> !IsNullOrEmpty(a.tag) && !IsNullOrEmpty(a.org) && !IsNullOrEmpty(a.toRegistry)
  {
    if IsNullOrEmpty(a.tag) then Some(NoTagMessage(a.images))
    else if IsNullOrEmpty(a.org) then Some(NoOrganisationMessage(a.images))
    else if IsNullOrEmpty(a.toRegistry) then Some(NoRegistryMessage(a.images))
    else None
  }

  /** A freshly constructed argument object passes `validate`, yet the step
      refuses it: its tag is empty. */
  lemma DefaultsValidButNoTag(self: string)
    ensures Validate(DefaultArguments(), self) == None
    ensures ApplyGuard(DefaultArguments()) == Some(NoTagMessage(Some([])))
  {
  }

  /** Arguments that get past the step's guard chain also pass `validate`;
      the converse fails, since `validate` accepts a missing tag. */
  lemma GuardPassedImpliesValid(a: Arguments, self: string)
    ensures ApplyGuard(a) == None ==> Validate(a, self) == None
    ensures a.tag == None && a.images == Some([]) ==> Validate(a, self) == None && ApplyGuard(a).Some?
  {
  }

  /** Where the commands run: a single node, or a cluster whose own registry
      is at `registryHost:registryPort` (either lookup may yield null). */
  datatype NodeMode = SingleNode | MultiNode(registryHost: JString, registryPort: JString)

  /** Number of commands issued per image. */
  function GroupSize(mode: NodeMode): nat
  {
    if mode.SingleNode? then 2 else 3
  }

  /** `/image:tag`: the part every image reference ends with. */
  function ImageSuffix(image: JString, tag: string): string
  {
    "/" + Render(image) + ":" + tag
  }

  /** `org/image:tag`: the image as the build left it on a single node. */
  function LocalRef(org: string, image: JString, tag: string): string
  {
    org + ImageSuffix(image, tag)
  }

  /** `host:port/`: the address of the cluster's own registry. */
  function ClusterRegistry(host: JString, port: JString): string
  {
    Render(host) + ":" + Render(port) + "/"
  }

  /** `host:port/org/image:tag`: an image in the cluster's own registry. */
  function ClusterRef(host: JString, port: JString, org: string, image: JString, tag: string): string
  {
    ClusterRegistry(host, port) + org + ImageSuffix(image, tag)
  }

  /** `toRegistry/org/image:tag`: the promoted image. */
  function TargetRef(toRegistry: string, org: string, image: JString, tag: string): string
  {
    toRegistry + "/" + org + ImageSuffix(image, tag)
  }

  /** The command group for one image: in single-node mode a tag and a push;
      otherwise a pull from the cluster registry (always from its `fabric8`
      organisation), a tag of the cluster reference under `org`, and the push. */
  function ImageCommands(image: JString, tag: string, org: string, toRegistry: string, mode: NodeMode): (g: seq<string>)
    ensures |g| == GroupSize(mode)
    ensures g[|g| - 1] == "docker push " + TargetRef(toRegistry, org, image, tag)
  {
    var push := "docker push " + TargetRef(toRegistry, org, image, tag);
    match mode
    case SingleNode =>
      ["docker tag " + LocalRef(org, image, tag) + " " + TargetRef(toRegistry, org, image, tag), push]
    case MultiNode(host, port) =>
      ["docker pull " + ClusterRef(host, port, "fabric8", image, tag),
       "docker tag " + ClusterRef(host, port, org, image, tag) + " " + TargetRef(toRegistry, org, image, tag),
       push]
  }

  /** Every command the step issues for `images`, in list order; each image
      contributes exactly one group of commands. */
  function PromotePlan(images: seq<JString>, tag: string, org: string, toRegistry: string, mode: NodeMode): (plan: seq<string>)
    ensures |plan| == GroupSize(mode) * |images|
  {
    if |images| == 0 then []
    else ImageCommands(images[0], tag, org, toRegistry, mode) + PromotePlan(images[1..], tag, org, toRegistry, mode)
  }

  /** The plan for a concatenation of lists is the concatenation of plans. */
  lemma {:induction false} PlanConcat(xs: seq<JString>, ys: seq<JString>, tag: string, org: string, toRegistry: string, mode: NodeMode)
    ensures PromotePlan(xs + ys, tag, org, toRegistry, mode)
              == PromotePlan(xs, tag, org, toRegistry, mode) + PromotePlan(ys, tag, org, toRegistry, mode)
  {
    if |xs| == 0 {
      assert xs + ys == ys;
    } else {
      assert (xs + ys)[1..] == xs[1..] + ys;
      PlanConcat(xs[1..], ys, tag, org, toRegistry, mode);
    }
  }

  /** Command `k` of the group of image `i` sits at position `i * size + k`:
      images are processed in list order, one group each. */
  lemma {:induction false} PlanAt(images: seq<JString>, tag: string, org: string, toRegistry: string, mode: NodeMode, i: nat, k: nat)
    requires i < |images| && k < GroupSize(mode)
    ensures |PromotePlan(images, tag, org, toRegistry, mode)| == GroupSize(mode) * |images|
    ensures PromotePlan(images, tag, org, toRegistry, mode)[i * GroupSize(mode) + k]
              == ImageCommands(images[i], tag, org, toRegistry, mode)[k]
  {
    var n := GroupSize(mode);
    var g := ImageCommands(images[0], tag, org, toRegistry, mode);
    var rest := PromotePlan(images[1..], tag, org, toRegistry, mode);
    if i > 0 {
      PlanAt(images[1..], tag, org, toRegistry, mode, i - 1, k);
      assert i * n + k == |g| + ((i - 1) * n + k);
    }
  }

  /** Single-node mode: image `i` gives `docker tag org/image:tag
      toRegistry/org/image:tag` at position 2i, then a push of that same target
      reference. */
  lemma SingleNodeTagThenPush(images: seq<JString>, tag: string, org: string, toRegistry: string, i: nat)
    requires i < |images|
    ensures |PromotePlan(images, tag, org, toRegistry, SingleNode)| == 2 * |images|
    ensures PromotePlan(images, tag, org, toRegistry, SingleNode)[2 * i]
              == "docker tag " + LocalRef(org, images[i], tag) + " " + TargetRef(toRegistry, org, images[i], tag)
    ensures PromotePlan(images, tag, org, toRegistry, SingleNode)[2 * i + 1]
              == "docker push " + TargetRef(toRegistry, org, images[i], tag)
  {
    var g := ImageCommands(images[i], tag, org, toRegistry, SingleNode);
    assert GroupSize(SingleNode) == 2;
    PlanAt(images, tag, org, toRegistry, SingleNode, i, 0);
    PlanAt(images, tag, org, toRegistry, SingleNode, i, 1);
    assert g[0] == "docker tag " + LocalRef(org, images[i], tag) + " " + TargetRef(toRegistry, org, images[i], tag);
  }

  /** Multi-node mode: image `i` gives, at positions 3i, 3i+1 and 3i+2, a pull
      from `host:port/fabric8/image:tag`, a tag from `host:port/org/image:tag`
      to `toRegistry/org/image:tag`, and the push of that target. */
  lemma MultiNodePullTagPush(images: seq<JString>, tag: string, org: string, toRegistry: string,
                             host: JString, port: JString, i: nat)
    requires i < |images|
    ensures |PromotePlan(images, tag, org, toRegistry, MultiNode(host, port))| == 3 * |images|
    ensures PromotePlan(images, tag, org, toRegistry, MultiNode(host, port))[3 * i]
              == "docker pull " + ClusterRef(host, port, "fabric8", images[i], tag)
    ensures PromotePlan(images, tag, org, toRegistry, MultiNode(host, port))[3 * i + 1]
              == "docker tag " + ClusterRef(host, port, org, images[i], tag)
                 + " " + TargetRef(toRegistry, org, images[i], tag)
    ensures PromotePlan(images, tag, org, toRegistry, MultiNode(host, port))[3 * i + 2]
              == "docker push " + TargetRef(toRegistry, org, images[i], tag)
  {
    var mode := MultiNode(host, port);
    var g := ImageCommands(images[i], tag, org, toRegistry, mode);
    assert GroupSize(mode) == 3;
    assert g[0] == "docker pull " + ClusterRef(host, port, "fabric8", images[i], tag);
    assert g[1] == "docker tag " + ClusterRef(host, port, org, images[i], tag)
                   + " " + TargetRef(toRegistry, org, images[i], tag);
    PlanAt(images, tag, org, toRegistry, mode, i, 0);
    PlanAt(images, tag, org, toRegistry, mode, i, 1);
    PlanAt(images, tag, org, toRegistry, mode, i, 2);
  }

  /** `a + s == b + s` forces `a == b`. */
  lemma {:induction false} CancelSuffix(a: string, b: string, s: string)
    requires a + s == b + s
    ensures a == b
  {
    assert |a| == |b|;
    assert a == (a + s)[..|a|];
    assert b == (b + s)[..|b|];
  }

  /** `p + a == p + b` forces `a == b`. */
  lemma {:induction false} CancelPrefix(p: string, a: string, b: string)
    requires p + a == p + b
    ensures a == b
  {
    assert a == (p + a)[|p|..];
    assert b == (p + b)[|p|..];
  }

  /** In multi-node mode the image pulled (from the `fabric8` organisation of
      the cluster registry) is the one re-tagged (from the `org` organisation)
      exactly when `org` is `fabric8`; for any other organisation the tag
      command names a reference the pull did not fetch. */
  lemma {:induction false} PulledIsTaggedIff(host: JString, port: JString, org: string, image: JString, tag: string)
    ensures (ClusterRef(host, port, "fabric8", image, tag) == ClusterRef(host, port, org, image, tag))
              <==> org == "fabric8"
  {
    var head := ClusterRegistry(host, port);
    var tail := ImageSuffix(image, tag);
    if ClusterRef(host, port, "fabric8", image, tag) == ClusterRef(host, port, org, image, tag) {
      CancelSuffix(head + "fabric8", head + org, tail);
      CancelPrefix(head, "fabric8", org);
    }
  }

  /** The `for` loop of `apply`: for each image in order, the tag (preceded by
      a pull on a cluster), then the push. Only the first attempt of the
      retried push is issued. */
  method IssueCommands(images: seq<JString>, tag: string, org: string, toRegistry: string, mode: NodeMode)
    returns (issued: seq<string>)
    ensures issued == PromotePlan(images, tag, org, toRegistry, mode)
    ensures |issued| == GroupSize(mode) * |images|
  {
    issued := [];
    var i := 0;
    while i < |images|
      invariant 0 <= i <= |images|
      invariant issued == PromotePlan(images[..i], tag, org, toRegistry, mode)
    {
      var image := images[i];
      var target := TargetRef(toRegistry, org, image, tag);
      if mode.SingleNode? {
        issued := issued + ["docker tag " + LocalRef(org, image, tag) + " " + target];
      } else {
        var host, port := mode.registryHost, mode.registryPort;
        issued := issued + ["docker pull " + ClusterRef(host, port, "fabric8", image, tag)];
        issued := issued + ["docker tag " + ClusterRef(host, port, org, image, tag) + " " + target];
      }
      issued := issued + ["docker push " + target];
      assert images[..i + 1] == images[..i] + [image];
      assert PromotePlan([image], tag, org, toRegistry, mode) == ImageCommands(image, tag, org, toRegistry, mode);
      PlanConcat(images[..i], [image], tag, org, toRegistry, mode);
      i := i + 1;
    }
    assert images[..|images|] == images;
  }

  /** What one run of the step does: report an error and issue nothing, issue
      the commands, or throw the NullPointerException of iterating a null
      image list (after the guards, before any command). */
  datatype ApplyOutcome = Reported(message: string) | Issued(commands: seq<string>) | NullImagesThrown

  /** `apply`: the guard chain, then the command loop. */
  method Apply(config: Arguments, mode: NodeMode) returns (out: ApplyOutcome)
    ensures ApplyGuard(config).Some? <==> out.Reported?
    ensures ApplyGuard(config).Some? ==> out == Reported(ApplyGuard(config).value)
    ensures ApplyGuard(config) == None && config.images == None ==> out == NullImagesThrown
    ensures ApplyGuard(config) == None && config.images.Some? ==>
              out == Issued(PromotePlan(config.images.value, config.tag.value, config.org.value,
                                        config.toRegistry.value, mode))
  {
    var failure := ApplyGuard(config);
    if failure.Some? {
      return Reported(failure.value);
    }
    if config.images == None {
      return NullImagesThrown;
    }
    var commands := IssueCommands(config.images.value, config.tag.value, config.org.value,
                                  config.toRegistry.value, mode);
    return Issued(commands);
  }
}
