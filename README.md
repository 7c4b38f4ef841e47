# S4 Kubernetes objects and the manifest rewriter, in Dafny

This project models two parts of the Least Authority S4 service, which runs one
Tahoe-LAFS introducer and storage server per customer subscription on Kubernetes.

- **The resource synthesizer** (`src/lae_automation/containers.py`) builds the objects of
  one subscription: a Deployment, whose two containers run the introducer and the storage
  server, and a ConfigMap, which holds their configuration. It also builds the one
  LoadBalancer Service that all subscriptions share. Every name is derived from the
  subscription id's *label*: the id in base 32 (RFC 4648, section 6), lower-cased, with
  the `=` padding stripped.
- **The manifest rewriter** (`k8s/rewrite-objects.py`) works on a list of Kubernetes
  documents. In every Deployment it pins the tag of the project's own images (owner
  `leastauthority`), both in container images and in `..._IMAGE` environment entries.
  On request it also replaces persistent-claim volumes with empty directories.

Both programs build their objects by path rewrites on immutable trees. The model has:

- `JsonTree`: a document tree and the rewrite engine, with the laws the proofs use.
  These laws cover setting at an address, batches below a common prefix, wildcards, and
  predicates over list indices.
- `Strings`: the Python string operations the code calls.
- `Base32`: the codec, stated on bit strings.
- `Containers` and `RewriteObjects`: the two programs.

All the code is pure, so the model consists of functions and lemmas.

How the engine behaves, following the rewrite library the code uses:

- Each (path, value) pair of a batch is applied to the result of the previous pair.
- A missing key on the way is created as an empty mapping, as recent releases of the library do.
- A list index equal to the list's length appends to the list.
- A selector predicate (`deployments(docs)`) closes over the list of documents it was
  given, so both rules of `rewrite_tags` pick the Deployments of the input.

A failure anywhere aborts the whole rewrite. Python's exceptions become `Failure`
values: `KeyError` is `MissingKey`, a wrong type is `TypeMismatch`, the `ValueError` of
`owned_by` is `ImageParseError`, and a path that does not fit is `PathError`.

Each pair is resolved against the working copy; only the selector sees the original list
of documents.

## Model

| member | source | states |
|---|---|---|
| Containers.SanitizeDigits | src/lae_automation/containers.py:244-245 | the label is the lower-cased alphabet part of the base-32 encoding; no `=` is left and every character is `a`-`z` or `2`-`7` |
| Containers.SanitizeInjective | src/lae_automation/containers.py:244-245 | distinct subscription ids have distinct labels |
| Containers.SanitizeVectors | src/lae_automation/test/test_signup.py:100-101 | the ids `abc` and `def` have the labels `mfrgg` and `mrswm` |
| Base32.EncodeVectors | src/lae_automation/test/test_signup.py:100-101 | `b32encode("abc") == "MFRGG==="` and `b32encode("def") == "MRSWM==="` |
| Base32.DecodeEncode | src/lae_automation/containers.py:365-369 | decoding an encoding gives the bytes back |
| Base32.EncodeInjective | src/lae_automation/containers.py:244-245 | distinct byte strings have distinct encodings |
| Base32.EncodeDigitsWhole | src/lae_automation/containers.py:365-369 | the alphabet part of an encoding is a whole number of 8-character quanta exactly when the input length is a multiple of 5 |
| Base32.Encode | src/lae_automation/containers.py:244-245 | an encoding is a whole number of 8-character quanta |
| Base32.Decode | src/lae_automation/containers.py:368 | only text that is a whole number of quanta decodes |
| Containers.NamesInjective | src/lae_automation/containers.py:64-65 | the ConfigMap name is `customer-config-` and the Deployment name is `customer-deployment-` (lines 249-250), each followed by the label; each name determines the id |
| Containers.PublicHostInjective | src/lae_automation/containers.py:69-73 | within one domain the public host `label.introducer.domain` determines the id |
| Containers.AutopadRoundTrip | src/lae_automation/containers.py:365-369 | the label of an id whose length is not a multiple of 5 decodes back to the id |
| Containers.AutopadRejectsWholeQuanta | src/lae_automation/containers.py:365-369 | the label of an id whose length is a multiple of 5 gets eight `=` and fails with incorrect padding |
| Containers.AutopadCounterexample | src/lae_automation/containers.py:365-369 | the five-byte id `abcde` is such an id |
| Containers.AutopadAgrees | src/lae_automation/containers.py:366 | the padding as written and the corrected padding agree unless the length is a multiple of 8 |
| Containers.AutopadFixedRoundTrip | src/lae_automation/containers.py:365-369 | with the padding counted modulo 8, every label decodes back to its id |
| Containers.InfrastructureMetadata | src/lae_automation/containers.py:37-40 | the infrastructure metadata is the customer labels with `component` set to `Infrastructure` |
| Containers.AnnotationsFacts | src/lae_automation/containers.py:44-60 | there are eight annotations with distinct keys, and both port numbers are decimal text that reads back as the number |
| Containers.Annotate | src/lae_automation/containers.py:44-60 | applying the annotation pairs to an object with metadata adds the eight annotations to the annotations already there (or to none) and changes nothing else |
| Strings.DecimalRoundTrip | src/lae_automation/containers.py:57 | the decimal text of an integer reads back as that integer |
| Containers.CreateDeploymentShape | src/lae_automation/containers.py:254-322 | `create_deployment` succeeds and yields the template with every rewrite applied (`DeploymentFor`) |
| Containers.DeploymentContainers | src/lae_automation/containers.py:287-304 | the two containers are the template's introducer and storage containers with the configured image and a first port named after them, in slots 0 and 1; all their other fields are kept |
| Containers.DeploymentVolumes | src/lae_automation/containers.py:283 | both volumes, in order, point at the subscription's ConfigMap; their names and items are kept |
| Containers.DeploymentLabels | src/lae_automation/containers.py:275-320 | the Deployment's labels, its selector's `matchLabels` and the pod template's labels are all the customer labels plus `subscription` set to the label |
| Containers.DeploymentAnnotations | src/lae_automation/containers.py:308-312 | the Deployment and its pod template both carry the eight subscription annotations |
| Containers.DeploymentIdentity | src/lae_automation/containers.py:267-272 | the object is a Deployment in the configured namespace, named after the subscription, with one replica |
| Containers.SettingsIgnoreLegacySecrets | src/lae_automation/containers.py:96-115 | of the legacy secrets only `server_node_privkey` is read: secrets that agree on it give the same settings, so the S3 credentials always come from the installation's configuration |
| Containers.ConfigurationIgnoresLegacySecrets | src/lae_automation/containers.py:77-131 | the whole ConfigMap, or its failure, is the same for legacy secrets that agree on `server_node_privkey` |
| Containers.SettingsHostsDistinct | src/lae_automation/containers.py:87-103 | within one domain, two subscriptions with distinct ids are given distinct public hosts |
| Containers.ConfigurationShape | src/lae_automation/containers.py:77-131 | `create_configuration` yields the ConfigMap template with its namespace, name and annotations set and the two JSON sections as data |
| Containers.ConfigurationFails | src/lae_automation/containers.py:97-131 | it fails exactly when `server_node_privkey` is missing or the marshalled configuration lacks `introducer` or `storage`, and the failure is a missing key |
| Containers.ConfigurationContents | src/lae_automation/containers.py:118-131 | the data has exactly the keys `introducer.json` and `storage.json`; the metadata is the customer labels, the namespace, the ConfigMap name and the eight annotations |
| Containers.NewServiceContents | src/lae_automation/containers.py:329-355 | the Service is `s4-customer-grids`, with the customer labels, a 3600-second idle timeout, type LoadBalancer, the infrastructure selector and TCP ports 10000 and 10001 |
| Containers.NewServiceShape | src/lae_automation/containers.py:359-362 | `new_service` is the shared Service with only its namespace set |
| JsonTree.SetUnder | src/lae_automation/containers.py:118-123 | a batch setting keys below one address stores them all in the mapping found there |
| JsonTree.WhereTwo | k8s/rewrite-objects.py:105-121 | two rules that pick list indices with the same predicate rewrite each picked item with both rules in turn and keep every other item |
| JsonTree.AnySpec | k8s/rewrite-objects.py:132-135 | a wildcard over a list rewrites every item and keeps the length and order |
| RewriteObjects.AllHoldAppend | k8s/rewrite-objects.py:61-64 | `and_` consults later predicates only once every earlier one has held |
| RewriteObjects.AllHoldSpec | k8s/rewrite-objects.py:61-64 | `and_` holds exactly when every predicate holds; otherwise it answers as the first predicate that fails or answers false |
| RewriteObjects.OwnedByShort | k8s/rewrite-objects.py:67-77 | `owner/name` belongs to `owner` |
| RewriteObjects.OwnedByLong | k8s/rewrite-objects.py:67-77 | `registry/owner/name` belongs to `owner` |
| RewriteObjects.OwnedByFails | k8s/rewrite-objects.py:67-77 | `owned_by` fails on non-text, and with a parse error exactly when the reference has neither one nor two `/` |
| RewriteObjects.SpecifiedTagUntagged | k8s/rewrite-objects.py:95-96 | a reference without `:` gets `:rev` appended |
| RewriteObjects.SpecifiedTagReplaces | k8s/rewrite-objects.py:95-96 | `base:tag` becomes `base:rev` |
| RewriteObjects.SpecifiedTagIdempotent | k8s/rewrite-objects.py:95-96 | retagging twice with the same revision is retagging once |
| Strings.BeforeLast | k8s/rewrite-objects.py:96 | `rsplit(":", 1)[0]` is the prefix before the last `:`, or all of the text |
| Strings.BeforeLastAppend | k8s/rewrite-objects.py:96 | the prefix before the last `:` of `base:tail` is `base` whenever `tail` has no `:` |
| RewriteObjects.ImageRewriteText | k8s/rewrite-objects.py:105-115 | an image field is retagged exactly when it is owned and tagged; an unparseable one fails even when untagged, because ownership is asked first |
| RewriteObjects.ImageRewriteNotText | k8s/rewrite-objects.py:105-115 | an image field that is not text, or is missing, fails |
| RewriteObjects.MaybeChangeImageOnlyValue | k8s/rewrite-objects.py:98-103 | an environment entry keeps its keys and every field but `value` |
| RewriteObjects.MaybeChangeImageRetags | k8s/rewrite-objects.py:98-103 | an `..._IMAGE` entry holding an owned reference is retagged, and an untagged one gets `:rev` appended |
| RewriteObjects.MaybeChangeImageKeeps | k8s/rewrite-objects.py:98-103 | any other entry that does not fail is kept |
| RewriteObjects.MaybeChangeImageFails | k8s/rewrite-objects.py:98-103 | the entries it fails on: not a mapping, no text `name`, or an `..._IMAGE` name without a parseable text `value` |
| RewriteObjects.RewriteTags | k8s/rewrite-objects.py:94-121 | the list keeps its length; each Deployment of the input is rewritten on its own, every other document is kept in place, and the rewrite fails exactly when a document is not a mapping or a Deployment's rewrite fails |
| RewriteObjects.RewriteDeployment | k8s/rewrite-objects.py:105-121 | a Deployment's container list is replaced by the containers rewritten one by one, and nothing else changes |
| RewriteObjects.RewriteContainerSpec | k8s/rewrite-objects.py:105-121 | a container's image goes through the image rewrite and each environment entry through `maybe_change_image`; nothing else changes |
| RewriteObjects.RewriteContainerNoEnv | k8s/rewrite-objects.py:119-120 | a container without environment entries gets an empty mapping of them |
| RewriteObjects.RewriteContainerNoImage | k8s/rewrite-objects.py:106-115 | a container without an image makes the rewrite fail |
| RewriteObjects.VolumeRewriteSpec | k8s/rewrite-objects.py:126-134 | a volume with a persistent claim becomes `{name, emptyDir: {}}`; any other volume is kept |
| RewriteObjects.StubAllVolumes | k8s/rewrite-objects.py:125-135 | the list keeps its length; each Deployment of the input is stubbed on its own and every other document is kept in place |
| RewriteObjects.StubDeployment | k8s/rewrite-objects.py:132-135 | a Deployment's volume list is replaced by its volumes rewritten one by one, in the same order, and nothing else changes |
| RewriteObjects.StubWithoutVolumes | k8s/rewrite-objects.py:132-135 | a Deployment without volumes gets an empty mapping of them |
| RewriteObjects.RunNothing | k8s/rewrite-objects.py:40-47 | without options the documents come back unchanged |
| RewriteObjects.RunGitTag | k8s/rewrite-objects.py:40-44 | `--git-tag` wins over `--tag`, and the tag used is the revision it names |
| RewriteObjects.RunStubsLast | k8s/rewrite-objects.py:46-47 | `--no-volumes` stubs the documents the tag rewrite produced |

## Left out

- Logging: the key-notification message and the SHA-256 of the secret key (containers.py lines 91-95) are left out.
- `marshal_tahoe_configuration` and `json.dumps` are calls into other code. They are parameters of `CreateConfiguration`.
- The ASCII decoding of the `json.dumps` output is left out. The text is used as it is.
- The Kubernetes object model (`model.v1...`) is left out. The model has only the fields the code sets or reads, and its documents carry no `apiVersion` and no other record defaults.
- Reading and writing YAML, option parsing and its usage errors are left out. The `git rev-parse --short` subprocess is the parameter `revParse`, which includes the `strip()` of its output.
- Case mapping covers the ASCII letters only. For `Lower` on a base-32 encoding that is all there is.
- Containers.AutopadB32Decode: upper-cases only ASCII letters, while Python's `unicode.upper` on the text it is given also maps a few other letters into the alphabet (`ı` to `I`, `ſ` to `S`). Python decodes `ſſ` as `SS======`, and the model fails on it with `NonBase32Digit`.
- RewriteObjects.RewriteContainerNoEnv: a container without `env` gains `env: {}` because the engine always stores a missing key it created, as recent pyrsistent releases do. Older releases store such a key only when the value below it changed, and leave `env` out. The project does not pin the library version.
- RewriteObjects.StubWithoutVolumes: a Deployment without `volumes` gains `volumes: {}` for the same reason, and older pyrsistent releases leave `volumes` out.
- `Base32.Decode` models the default `b32decode` only. Its `casefold` and `map01` options are not used by the code and are left out.
- The engine has no `At` index or predicate on mappings, since the code never uses them.
- Several children of a mapping under a wildcard can fail at once. The model then reports one fixed failure kind, where Python reports the first in hash order.
- `RewriteObjects.Deployments`: an index outside the list is a `PathError`. The engine never asks about such an index.

## Findings

| source | as written | input that shows it | evidently intended | confidence | as-written member | corrected member |
|---|---|---|---|---|---|---|
| src/lae_automation/containers.py:366 | `padding = 8 - (len(s) % 8)` adds eight `=` to a label that is already a whole number of quanta, and `b32decode` rejects it with "Incorrect padding" | the label of any id whose length is a multiple of 5, e.g. `abcde` (label `mfrggzdf`), or the empty id | pad only to the next multiple of 8, i.e. `(8 - len(s) % 8) % 8` characters, so every label decodes back to its id | not executed | Containers.AutopadRejectsWholeQuanta | Containers.AutopadFixedRoundTrip |
