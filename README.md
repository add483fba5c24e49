# fabric8 pipelines plugin: whitelist and image promotion, in Dafny

This project models two parts of the Jenkins fabric8 pipelines plugin. It
proves properties of both.

**The package-set script whitelist** (`whitelist.dfy`, module
`PipelinesWhitelist`). The pipeline script sandbox asks this whitelist
before untrusted pipeline code may call a method, a constructor or a static
method, or read or write a field or a static field, on a host class. Each of
the seven entry points answers the same way. It takes the member's declaring
class and looks up that class's package name, by exact string equality, in a
fixed set of six package names. The model abstracts reflection to value
descriptors (`ClassRef`, `MethodRef`, `ConstructorRef`, `FieldRef`). It
carries the receiver, the arguments and the assigned value as `Value`s, so
that it can state that the verdict ignores them. The whitelist is a value
(`Whitelist(validPackages)`): its set is fixed at construction and never
changes. So every query is a function of the whitelist and the query, and
repeating a query gives the same answer. On Java 8 a class in the default
package has no `Package`, and `getPackage().getName()` then throws a
NullPointerException. The model represents this as the outcome
`ThrowsNullPointer`.

**The `promoteImages` step** (`promote_images.dfy`, module `PromoteImages`).
`Validate` is the arguments' own check. It returns a message or "valid". When
there are images, it checks the organisation first and then the target
registry. It never looks at the tag. `ApplyGuard` is the check chain at the
top of `apply`: tag, then organisation, then target registry. It reports the
first one missing, and no command is then issued. `PromotePlan` is the list
of `docker` command lines passed to `sh`, one group per image in list order:
- single-node: a tag and a push;
- multi-node: a pull from `host:port/fabric8/…`, a tag from
  `host:port/org/…`, and a push.

`IssueCommands` is the step's loop, proved to issue exactly `PromotePlan`.
`Apply` is the whole step. Java `null` is `None` of an option type
(`JavaText.JString`). Guava's `isNullOrEmpty` treats `None` and `""` alike.
String concatenation renders `null` as `null` and a list as `[a, b]`
(`JavaText`).

Every entry point throws a NullPointerException for a class whose
`getPackage()` is null; the model represents this as `ThrowsNullPointer`.
There are seven entry points, and the model has all seven.

In multi-node mode, the pull fetches `host:port/fabric8/image:tag`, but the
tag command re-tags `host:port/org/image:tag`. The model keeps this as
written. `PulledIsTaggedIff` proves that the two references are the same
exactly when the organisation is `fabric8`.

## Model

| member | source | states |
|---|---|---|
| PipelinesWhitelist.PermitClass | src/main/java/org/jenkinsci/plugins/fabric8/dsl/Fabric8PipelinesWhitelist.java:77-78 | permitted iff the class has a package and its name is exactly in the set; denied iff it has a package outside the set; throws iff it has no package |
| PipelinesWhitelist.PermitsMethod | src/main/java/org/jenkinsci/plugins/fabric8/dsl/Fabric8PipelinesWhitelist.java:42-45 | instance method call permitted iff the declaring class's package is trusted; throws iff it has no package |
| PipelinesWhitelist.PermitsConstructor | src/main/java/org/jenkinsci/plugins/fabric8/dsl/Fabric8PipelinesWhitelist.java:47-50 | constructor call permitted iff the declaring class's package is trusted; throws iff it has no package |
| PipelinesWhitelist.PermitsStaticMethod | src/main/java/org/jenkinsci/plugins/fabric8/dsl/Fabric8PipelinesWhitelist.java:52-55 | static method call permitted iff the declaring class's package is trusted; throws iff it has no package |
| PipelinesWhitelist.PermitsFieldGet | src/main/java/org/jenkinsci/plugins/fabric8/dsl/Fabric8PipelinesWhitelist.java:57-60 | field read permitted iff the declaring class's package is trusted; throws iff it has no package |
| PipelinesWhitelist.PermitsFieldSet | src/main/java/org/jenkinsci/plugins/fabric8/dsl/Fabric8PipelinesWhitelist.java:62-65 | field write permitted iff the declaring class's package is trusted; throws iff it has no package |
| PipelinesWhitelist.PermitsStaticFieldGet | src/main/java/org/jenkinsci/plugins/fabric8/dsl/Fabric8PipelinesWhitelist.java:67-70 | static field read permitted iff the declaring class's package is trusted; throws iff it has no package |
| PipelinesWhitelist.PermitsStaticFieldSet | src/main/java/org/jenkinsci/plugins/fabric8/dsl/Fabric8PipelinesWhitelist.java:72-75 | static field write permitted iff the declaring class's package is trusted; throws iff it has no package |
| PipelinesWhitelist.AskIsPermitClass | src/main/java/org/jenkinsci/plugins/fabric8/dsl/Fabric8PipelinesWhitelist.java:42-78 | every entry point answers exactly `permitClass` of the member's declaring class |
| PipelinesWhitelist.SameDeclaringClassSameVerdict | src/main/java/org/jenkinsci/plugins/fabric8/dsl/Fabric8PipelinesWhitelist.java:42-75 | two accesses whose members share a declaring class get the same verdict, whatever their access kinds |
| PipelinesWhitelist.VerdictIgnoresValues | src/main/java/org/jenkinsci/plugins/fabric8/dsl/Fabric8PipelinesWhitelist.java:42-75 | the verdict is unchanged when the receiver, the arguments and the assigned value are erased |
| PipelinesWhitelist.FailClosed | src/main/java/org/jenkinsci/plugins/fabric8/dsl/Fabric8PipelinesWhitelist.java:42-78 | a declaring package outside the set is denied by every entry point; a permitted access always has a trusted declaring package |
| PipelinesWhitelist.TrustIsPerPackage | src/main/java/org/jenkinsci/plugins/fabric8/dsl/Fabric8PipelinesWhitelist.java:33-78 | adding a package to the set changes verdicts only for classes of that exact package, not its parent or children |
| PipelinesWhitelist.Fabric8PermitsExactlySix | src/main/java/org/jenkinsci/plugins/fabric8/dsl/Fabric8PipelinesWhitelist.java:33-40 | the plugin's whitelist permits a named package iff it is one of the six listed names |
| PipelinesWhitelist.OwnPackageNotTrusted | src/main/java/org/jenkinsci/plugins/fabric8/dsl/Fabric8PipelinesWhitelist.java:17-40 | `org.jenkinsci.plugins.fabric8` is permitted but its child `org.jenkinsci.plugins.fabric8.dsl`, the whitelist's own package, is denied: no prefix matching |
| PromoteImages.DefaultArguments | src/main/java/org/jenkinsci/plugins/fabric8/steps/PromoteImages.java:91-105 | a freshly constructed argument object has empty tag, organisation and registry, an empty image list and container `clients` |
| PromoteImages.DefaultsValidButNoTag | src/main/java/org/jenkinsci/plugins/fabric8/steps/PromoteImages.java:53-56 | a freshly constructed argument object passes `validate`, but the step refuses it and reports the missing tag |
| PromoteImages.Validate | src/main/java/org/jenkinsci/plugins/fabric8/steps/PromoteImages.java:118-128 | valid whenever the image list is null or empty; otherwise a missing organisation is reported before a missing registry; valid iff no images, or organisation and registry both present |
| PromoteImages.ValidateIgnoresTag | src/main/java/org/jenkinsci/plugins/fabric8/steps/PromoteImages.java:118-128 | changing the tag never changes the result of `validate` |
| PromoteImages.ValidateMessagesDiffer | src/main/java/org/jenkinsci/plugins/fabric8/steps/PromoteImages.java:120-125 | the missing-organisation and missing-registry messages always differ |
| PromoteImages.ApplyGuard | src/main/java/org/jenkinsci/plugins/fabric8/steps/PromoteImages.java:53-64 | a missing tag is reported first, then a missing organisation, then a missing registry; passes iff all three are present |
| PromoteImages.GuardPassedImpliesValid | src/main/java/org/jenkinsci/plugins/fabric8/steps/PromoteImages.java:53-64 | arguments that pass the step's guard chain pass `validate`; a null tag with no images passes `validate` but not the guard chain |
| PromoteImages.ImageCommands | src/main/java/org/jenkinsci/plugins/fabric8/steps/PromoteImages.java:69-82 | one image gives 2 commands in single-node mode and 3 otherwise, the last being the push of `toRegistry/org/image:tag` |
| PromoteImages.PlanConcat | src/main/java/org/jenkinsci/plugins/fabric8/steps/PromoteImages.java:68-83 | the plan for a concatenated image list is the concatenation of the two plans |
| PromoteImages.PromotePlan | src/main/java/org/jenkinsci/plugins/fabric8/steps/PromoteImages.java:68-83 | the commands issued for the images, one group per image in list order; the plan has group size × number of images commands |
| PromoteImages.PlanAt | src/main/java/org/jenkinsci/plugins/fabric8/steps/PromoteImages.java:68-83 | command k of image i's group sits at position i × group size + k: images are processed in list order |
| PromoteImages.SingleNodeTagThenPush | src/main/java/org/jenkinsci/plugins/fabric8/steps/PromoteImages.java:69-82 | single-node: position 2i tags `org/image:tag` as `toRegistry/org/image:tag`, position 2i+1 pushes that same target |
| PromoteImages.MultiNodePullTagPush | src/main/java/org/jenkinsci/plugins/fabric8/steps/PromoteImages.java:71-82 | multi-node: positions 3i, 3i+1, 3i+2 pull `host:port/fabric8/image:tag`, tag `host:port/org/image:tag` as the target, push the target |
| PromoteImages.PulledIsTaggedIff | src/main/java/org/jenkinsci/plugins/fabric8/steps/PromoteImages.java:75-76 | the pulled reference equals the re-tagged source exactly when the organisation is `fabric8` |
| PromoteImages.IssueCommands | src/main/java/org/jenkinsci/plugins/fabric8/steps/PromoteImages.java:68-83 | the loop issues exactly the plan, group size × number of images commands |
| PromoteImages.Apply | src/main/java/org/jenkinsci/plugins/fabric8/steps/PromoteImages.java:47-86 | reports the guard's first error and issues nothing; otherwise throws on a null image list before any command, or issues exactly the plan |

## Left out

- The Jenkins runtime primitives `container`, `retry`, `sh`, `error`, `echo`, `dir` and `step` are supplied by the host. `sh` is modelled as appending a command line. `error` is modelled as the reported message. `container("docker", …)` is not modelled.
- `retry(3, …)` around the push is not modelled. Each push is issued once, i.e. the first attempt; retrying after a failed push needs the host's process results.
- `Fabric8Commands.isSingleNode`, `getDockerRegistryHost` and `getDockerRegistryPort` live in classes that are not part of this model. They are taken as one `NodeMode` parameter. The source repeats these lookups for every image; the model assumes they give the same answer each time.
- `Object.toString` of the arguments object, which `validate` appends to its messages, is a parameter (`self`).
- `PipelinesWhitelist.PermitClass` follows Java 8 for a class in the default package: `getPackage()` is null there and the check throws. On Java 9 and later `getPackage()` returns a package named `""`, and the check returns false instead.
- `PromoteImages.Apply`: `Issued(…)` describes a run in which every `sh` succeeds. A failing command throws and ends the loop early; the model does not capture that.
- Java reflection (`Method`, `Field`, `Constructor`, `getDeclaringClass`, `getPackage`) is abstracted to the descriptors in `PipelinesWhitelist`. How the host resolves a member's declaring class is not modelled.
- The signature allow-list of `MavenFlowDSL` and its combination with this whitelist are not modelled. Matching, parsing and composition of those lists live in the script-security library, which is not part of this model.
- The `Arguments` getters and setters, serialisation and the step's annotations are not modelled. `containerName` is carried as a field of `Arguments`, but no operation reads it.
- Concurrent use of the whitelist is not modelled. The whitelist is an immutable value, so there is no shared mutable state to model.
- The steps `SonarQubeScanner`, `JUnitResults` and `TagImages` are shell and file-system orchestration. They are not part of this model.
