/** The Resource Synthesizer: the Kubernetes objects that give one S4 subscription its
    Tahoe-LAFS introducer and storage server (a Deployment and a ConfigMap), and the one
    LoadBalancer Service shared by all subscriptions. */
module Containers {

  import opened Wrappers
  import opened Strings
  import opened Base32
  import opened JsonTree

  /** The settings of the whole installation that the objects depend on. */
  datatype DeploymentConfiguration = DeploymentConfiguration(
    domain: string,
    kubernetesNamespace: string,
    privateHost: string,
    s3AccessKeyId: string,
    s3SecretKey: string,
    introducerImage: string,
    storageserverImage: string,
    logGathererFurl: string,
    statsGathererFurl: string)

  /** What is known about one subscription. `oldSecrets` is the legacy secrets dictionary. */
  datatype SubscriptionDetails = SubscriptionDetails(
    bucketname: string,
    oldSecrets: map<string, string>,
    customerEmail: string,
    productId: string,
    customerId: string,
    subscriptionId: seq<byte>,
    introducerPortNumber: int,
    storagePortNumber: int,
    introducerNodePem: string,
    serverNodePem: string,
    introducerTubId: string,
    storageTubId: string,
    externalIntroducerFurl: string)

  // ---------------------------------------------------------------------------
  // Names derived from the subscription id.

  /** The subscription id as a label: its base-32 encoding, lower-cased, without `=`. */
  function Sanitize(id: seq<byte>): string
  {
    Strip(Lower(Encode(id)), '=')
  }

  predicate IsLabelChar(c: char)
  {
    'a' <= c <= 'z' || '2' <= c <= '7'
  }

  /** Lower-casing alphabet characters followed by `=` padding and stripping the `=`
      leaves the lower-cased characters. */
  lemma {:induction false} StripLowerPadding(body: string, k: nat)
    requires forall i | 0 <= i < |body| :: IsDigitChar(body[i])
    ensures Strip(Lower(body + Repeat('=', k)), '=') == Lower(body)
    ensures forall i | 0 <= i < |Lower(body)| :: IsLabelChar(Lower(body)[i])
  {
    var low := Lower(body);
    assert forall i | 0 <= i < |low| :: low[i] == LowerChar(body[i]);
    assert forall i | 0 <= i < |low| :: IsLabelChar(low[i]);
    var t := body + Repeat('=', k);
    assert Lower(t) == low + Repeat('=', k) by {
      forall i | 0 <= i < |t| ensures Lower(t)[i] == (low + Repeat('=', k))[i] {
        if i < |body| { assert t[i] == body[i]; } else { assert t[i] == '='; }
      }
    }
    assert low == [] || (low[0] != '=' && low[|low| - 1] != '=');
    StripPadding(low, '=', k);
  }

  /** The sanitized id is the lower-cased alphabet part of the encoding: the padding is gone
      and every character is a lower-case letter or a digit 2-7. */
  lemma SanitizeDigits(id: seq<byte>)
    ensures Sanitize(id) == Lower(EncodeDigits(id))
    ensures forall i | 0 <= i < |Sanitize(id)| :: IsLabelChar(Sanitize(id)[i])
  {
    StripLowerPadding(EncodeDigits(id), PadCount(|EncodeDigits(id)|));
  }

  /** Lower-casing is one-to-one on alphabet characters. */
  lemma LowerDigitsInjective(a: string, b: string)
    requires forall i | 0 <= i < |a| :: IsDigitChar(a[i])
    requires forall i | 0 <= i < |b| :: IsDigitChar(b[i])
    requires Lower(a) == Lower(b)
    ensures a == b
  {
    UpperLower(a);
    UpperLower(b);
  }

  /** The label keeps the whole id: distinct ids give distinct labels. */
  lemma SanitizeInjective(id1: seq<byte>, id2: seq<byte>)
    requires Sanitize(id1) == Sanitize(id2)
    ensures id1 == id2
  {
    SanitizeDigits(id1);
    SanitizeDigits(id2);
    LowerDigitsInjective(EncodeDigits(id1), EncodeDigits(id2));
    EncodeDigitsInjective(id1, id2);
  }

  /** The vectors `abc` and `def`: their labels are `mfrgg` and `mrswm`. */
  lemma SanitizeVectors()
    ensures Sanitize([97, 98, 99]) == "mfrgg"
    ensures Sanitize([100, 101, 102]) == "mrswm"
  {
    EncodeVectors();
    AbcLabel();
    DefLabel();
  }

  lemma AbcLabel()
    requires Encode([97, 98, 99]) == "MFRGG==="
    ensures Sanitize([97, 98, 99]) == "mfrgg"
  {
    var d, l := "MFRGG", "mfrgg";
    assert d + "===" == "MFRGG===";
    assert d[0] == 'M' && d[1] == 'F' && d[2] == 'R' && d[3] == 'G' && d[4] == 'G';
    assert l[0] == 'm' && l[1] == 'f' && l[2] == 'r' && l[3] == 'g' && l[4] == 'g';
    LabelOf([97, 98, 99], d, l);
  }

  lemma DefLabel()
    requires Encode([100, 101, 102]) == "MRSWM==="
    ensures Sanitize([100, 101, 102]) == "mrswm"
  {
    var d, l := "MRSWM", "mrswm";
    assert d + "===" == "MRSWM===";
    assert d[0] == 'M' && d[1] == 'R' && d[2] == 'S' && d[3] == 'W' && d[4] == 'M';
    assert l[0] == 'm' && l[1] == 'r' && l[2] == 's' && l[3] == 'w' && l[4] == 'm';
    LabelOf([100, 101, 102], d, l);
  }

  /** An id encoded as five alphabet characters and three `=` has those characters,
      lower-cased, as its label. */
  lemma LabelOf(id: seq<byte>, digits: string, lbl: string)
    requires |digits| == 5 && |lbl| == 5 && Encode(id) == digits + "==="
    requires forall i | 0 <= i < 5 :: 'A' <= digits[i] <= 'Z' && lbl[i] == LowerChar(digits[i])
    ensures Sanitize(id) == lbl
  {
    assert Repeat('=', 3) == "===";
    assert forall i | 0 <= i < 5 :: IsDigitChar(digits[i]);
    StripLowerPadding(digits, 3);
    assert Lower(digits) == lbl;
  }

  function ConfigmapName(id: seq<byte>): string
  {
    "customer-config-" + Sanitize(id)
  }

  function DeploymentName(id: seq<byte>): string
  {
    "customer-deployment-" + Sanitize(id)
  }

  /** The public host name of a subscription's introducer. */
  function ConfigmapPublicHost(id: seq<byte>, domain: string): string
  {
    Sanitize(id) + ".introducer." + domain
  }

  /** The ConfigMap and Deployment names are the fixed prefixes followed by the label, so
      distinct subscriptions never share a name. */
  lemma NamesInjective(id1: seq<byte>, id2: seq<byte>)
    ensures ConfigmapName(id1) == ConfigmapName(id2) <==> id1 == id2
    ensures DeploymentName(id1) == DeploymentName(id2) <==> id1 == id2
    ensures ConfigmapName(id1)[..16] == "customer-config-"
    ensures DeploymentName(id1)[..20] == "customer-deployment-"
    ensures ConfigmapName(id1)[16..] == DeploymentName(id1)[20..] == Sanitize(id1)
  {
    if ConfigmapName(id1) == ConfigmapName(id2) {
      assert ConfigmapName(id1)[16..] == Sanitize(id1);
      SanitizeInjective(id1, id2);
    }
    if DeploymentName(id1) == DeploymentName(id2) {
      assert DeploymentName(id1)[20..] == Sanitize(id1);
      SanitizeInjective(id1, id2);
    }
  }

  /** The public host is the label, `.introducer.` and the domain, and it determines the id
      among hosts of the same domain. */
  lemma PublicHostInjective(id1: seq<byte>, id2: seq<byte>, domain: string)
    ensures ConfigmapPublicHost(id1, domain) == ConfigmapPublicHost(id2, domain) <==> id1 == id2
  {
    if ConfigmapPublicHost(id1, domain) == ConfigmapPublicHost(id2, domain) {
      HostLabel(Sanitize(id1), Sanitize(id2), domain);
      SanitizeInjective(id1, id2);
    }
  }

  /** Two hosts under the same domain with the same name have the same label. */
  lemma HostLabel(l1: string, l2: string, domain: string)
    requires l1 + ".introducer." + domain == l2 + ".introducer." + domain
    ensures l1 == l2
  {
    var t := ".introducer." + domain;
    assert l1 + ".introducer." + domain == l1 + t;
    assert l2 + ".introducer." + domain == l2 + t;
    SameSuffix(l1, l2, t);
  }

  /** Two strings followed by the same text are equal. */
  lemma SameSuffix(a: string, b: string, t: string)
    requires a + t == b + t
    ensures a == b
  {
    assert |a| == |b|;
    assert (a + t)[..|a|] == a;
    assert (b + t)[..|b|] == b;
  }

  // ---------------------------------------------------------------------------
  // Decoding a label back into the subscription id.

  /** `autopad_b32decode` as written: appends `8 - len % 8` `=` characters (eight of them
      when the length is already a multiple of 8), upper-cases and decodes. */
  function AutopadB32Decode(s: string): Decoded
  {
    var padding := 8 - |s| % 8;
    Decode(Upper(s + Repeat('=', padding)))
  }

  /** The padding the decoder accepts: only as many `=` as complete the last quantum. */
  function AutopadB32DecodeFixed(s: string): Decoded
  {
    Decode(Upper(s + Repeat('=', PadCount(|s|))))
  }

  lemma UpperPadded(s: string, n: nat)
    ensures Upper(s + Repeat('=', n)) == Upper(s) + Repeat('=', n)
  {
  }

  /** Filling a label with `k` `=` characters and upper-casing it gives the alphabet part
      of the encoding back, followed by those `=` characters. */
  lemma {:induction false} Repadded(id: seq<byte>, k: nat)
    ensures Upper(Sanitize(id) + Repeat('=', k)) == EncodeDigits(id) + Repeat('=', k)
  {
    SanitizeDigits(id);
    UpperPadded(Sanitize(id), k);
    UpperLower(EncodeDigits(id));
  }

  /** With the padding counted modulo 8 every label decodes back to its id. */
  lemma {:induction false} AutopadFixedRoundTrip(id: seq<byte>)
    ensures AutopadB32DecodeFixed(Sanitize(id)) == Bytes(id)
  {
    SanitizeDigits(id);
    assert |Sanitize(id)| == |EncodeDigits(id)|;
    Repadded(id, PadCount(|EncodeDigits(id)|));
    DecodeEncode(id);
  }

  /** Both paddings agree on text that is not a whole number of quanta. */
  lemma AutopadAgrees(s: string)
    requires |s| % 8 != 0
    ensures AutopadB32Decode(s) == AutopadB32DecodeFixed(s)
  {
    PadCountShort(|s|);
  }

  lemma PadCountShort(n: nat)
    requires n % 8 != 0
    ensures PadCount(n) == 8 - n % 8
  {
  }

  /** The label of an id whose length is not a multiple of 5 decodes back to the id. */
  lemma {:induction false} AutopadRoundTrip(id: seq<byte>)
    requires |id| % 5 != 0
    ensures AutopadB32Decode(Sanitize(id)) == Bytes(id)
  {
    SanitizeDigits(id);
    EncodeDigitsWhole(id);
    assert |Sanitize(id)| % 8 != 0;
    AutopadAgrees(Sanitize(id));
    AutopadFixedRoundTrip(id);
  }

  /** Text made of alphabet characters and a whole number of quanta, followed by eight `=`
      characters, does not decode. */
  lemma {:induction false} EightPaddingRejected(body: string)
    requires |body| % 8 == 0
    requires forall i | 0 <= i < |body| :: IsDigitChar(body[i])
    ensures Decode(body + Repeat('=', 8)) == IncorrectPadding
  {
    var s := body + Repeat('=', 8);
    assert body == [] || body[|body| - 1] != '=';
    StripRightPadding(body, '=', 8);
    assert |s| - |StripRight(s, '=')| == 8;
  }

  /** The defect: the label of an id whose length is a multiple of 5 (the empty id among
      them) is a whole number of quanta, gets eight `=` characters, and does not decode. */
  lemma {:induction false} AutopadRejectsWholeQuanta(id: seq<byte>)
    requires |id| % 5 == 0
    ensures AutopadB32Decode(Sanitize(id)) == IncorrectPadding
  {
    SanitizeDigits(id);
    EncodeDigitsWhole(id);
    assert |Sanitize(id)| % 8 == 0;
    Repadded(id, 8);
    EightPaddingRejected(EncodeDigits(id));
  }

  /** The five-byte id `abcde` is such an id. */
  lemma AutopadCounterexample()
    ensures AutopadB32Decode(Sanitize([97, 98, 99, 100, 101])) == IncorrectPadding
  {
    AutopadRejectsWholeQuanta([97, 98, 99, 100, 101]);
  }

  // ---------------------------------------------------------------------------
  // Metadata.

  const ContainerizedSubscriptionVersion := "2"

  /** The labels of every per-customer object. */
  const CustomerLabels: map<string, Json> := map[
    "provider" := Str("LeastAuthority"),
    "app" := Str("s4"),
    "component" := Str("customer-tahoe-lafs"),
    "version" := Str(ContainerizedSubscriptionVersion)]

  function CustomerMetadata(): Json
  {
    Object(map["labels" := Object(CustomerLabels)])
  }

  /** The metadata of the shared infrastructure: the customer labels with the component
      changed to `Infrastructure`. */
  function InfrastructureMetadata(): (r: Result<Json>)
    ensures r == Ok(Object(map["labels" := Object(CustomerLabels["component" := Str("Infrastructure")])]))
  {
    var rule := Rule([Key("labels"), Key("component")], Value(Str("Infrastructure")));
    var labels := Object(CustomerLabels["component" := Str("Infrastructure")]);
    assert Update(Object(CustomerLabels), rule.path[1..], rule.with) == Ok(labels);
    assert rule.path[1..] == [Key("component")];
    assert Child(CustomerMetadata().fields, "labels") == Object(CustomerLabels);
    assert CustomerMetadata().fields["labels" := labels] == map["labels" := labels];
    assert Update(CustomerMetadata(), rule.path, rule.with) == Ok(Object(map["labels" := labels]));
    TransformOne(CustomerMetadata(), rule);
    Transform(CustomerMetadata(), [rule])
  }

  /** The annotations describing the customer and the subscription, in the order they are
      set. The subscription id is stored as the text of its bytes and the port numbers as
      decimal text. */
  function AnnotationPairs(details: SubscriptionDetails): seq<(string, Json)>
  {
    [("email", Str(details.customerEmail)),
     ("customer", Str(details.customerId)),
     ("subscription", Str(BytesText(details.subscriptionId))),
     ("plan", Str(details.productId)),
     ("leastauthority.com/introducer-tub-id", Str(details.introducerTubId)),
     ("leastauthority.com/storage-tub-id", Str(details.storageTubId)),
     ("leastauthority.com/introducer-port-number", Str(Decimal(details.introducerPortNumber))),
     ("leastauthority.com/storage-port-number", Str(Decimal(details.storagePortNumber)))]
  }

  /** A byte string used where text is expected: each byte is one character. */
  function BytesText(b: seq<byte>): (t: string)
    ensures |t| == |b| && forall i | 0 <= i < |b| :: t[i] as int == b[i]
  {
    seq(|b|, i requires 0 <= i < |b| => b[i] as char)
  }

  /** `subscription_metadata`: the path/value pairs setting each annotation below
      `metadata.annotations`. */
  function SubscriptionMetadata(details: SubscriptionDetails): seq<Rule>
  {
    SetRules([Key("metadata"), Key("annotations")], AnnotationPairs(details))
  }

  /** The annotations as a mapping. */
  function Annotations(details: SubscriptionDetails): map<string, Json>
  {
    map[
      "email" := Str(details.customerEmail),
      "customer" := Str(details.customerId),
      "subscription" := Str(BytesText(details.subscriptionId)),
      "plan" := Str(details.productId),
      "leastauthority.com/introducer-tub-id" := Str(details.introducerTubId),
      "leastauthority.com/storage-tub-id" := Str(details.storageTubId),
      "leastauthority.com/introducer-port-number" := Str(Decimal(details.introducerPortNumber)),
      "leastauthority.com/storage-port-number" := Str(Decimal(details.storagePortNumber))]
  }

  /** There are eight annotations, with distinct keys, and both port numbers read back from
      their text. */
  lemma AnnotationsFacts(details: SubscriptionDetails)
    ensures |AnnotationPairs(details)| == 8
    ensures SetAll(map[], AnnotationPairs(details)) == Annotations(details)
    ensures ParseDecimal(Annotations(details)["leastauthority.com/introducer-port-number"].s) == Some(details.introducerPortNumber)
    ensures ParseDecimal(Annotations(details)["leastauthority.com/storage-port-number"].s) == Some(details.storagePortNumber)
  {
    AnnotationsSet(details);
    DecimalRoundTrip(details.introducerPortNumber);
    DecimalRoundTrip(details.storagePortNumber);
  }

  /** Setting the eight pairs one after the other on no annotations gives `Annotations`. */
  lemma AnnotationsSet(details: SubscriptionDetails)
    ensures SetAll(map[], AnnotationPairs(details)) == Annotations(details)
  {
    var p := AnnotationPairs(details);
    var m0: map<string, Json> := map[];
    var m1 := m0[p[0].0 := p[0].1];
    assert p[0..][1..] == p[1..];
    assert SetAll(m0, p[0..]) == SetAll(m1, p[1..]);
    var m2 := m1[p[1].0 := p[1].1];
    assert p[1..][1..] == p[2..];
    assert SetAll(m1, p[1..]) == SetAll(m2, p[2..]);
    var m3 := m2[p[2].0 := p[2].1];
    assert p[2..][1..] == p[3..];
    assert SetAll(m2, p[2..]) == SetAll(m3, p[3..]);
    var m4 := m3[p[3].0 := p[3].1];
    assert p[3..][1..] == p[4..];
    assert SetAll(m3, p[3..]) == SetAll(m4, p[4..]);
    var m5 := m4[p[4].0 := p[4].1];
    assert p[4..][1..] == p[5..];
    assert SetAll(m4, p[4..]) == SetAll(m5, p[5..]);
    var m6 := m5[p[5].0 := p[5].1];
    assert p[5..][1..] == p[6..];
    assert SetAll(m5, p[5..]) == SetAll(m6, p[6..]);
    var m7 := m6[p[6].0 := p[6].1];
    assert p[6..][1..] == p[7..];
    assert SetAll(m6, p[6..]) == SetAll(m7, p[7..]);
    var m8 := m7[p[7].0 := p[7].1];
    assert p[7..][1..] == p[8..];
    assert SetAll(m7, p[7..]) == SetAll(m8, p[8..]);
    assert p[8..] == [];
    assert p[0..] == p;
    assert m8 == Annotations(details);
  }

  /** Annotating any object with metadata: the annotations found there, or none, plus the
      eight subscription annotations, and nothing else changes. */
  lemma Annotate(d: Json, details: SubscriptionDetails)
    requires d.Object? && "metadata" in d.fields && d.fields["metadata"].Object?
    requires var m := d.fields["metadata"].fields; "annotations" !in m || m["annotations"].Object?
    ensures var m := d.fields["metadata"].fields;
      var before := if "annotations" in m then m["annotations"].fields else map[];
      Transform(d, SubscriptionMetadata(details)) ==
        Ok(Object(d.fields["metadata" := Object(m["annotations" := Object(SetAll(before, AnnotationPairs(details)))])]))
  {
    var a := [Key("metadata"), Key("annotations")];
    var m := d.fields["metadata"].fields;
    assert Reaches(d, a) by {
      assert a[1..] == [Key("annotations")] && a[1..][1..] == [];
    }
    assert Get(d, a) == Get(d.fields["metadata"], [Key("annotations")]);
    assert Get(d.fields["metadata"], [Key("annotations")]) == if "annotations" in m then Some(m["annotations"]) else None;
    assert Base(d, a) == if "annotations" in m then m["annotations"] else Empty;
    SetUnder(d, a, AnnotationPairs(details));
  }

  // ---------------------------------------------------------------------------
  // The Deployment.

  /** The ConfigMap entry a volume exposes as a file of the same name. */
  function ConfigItems(key: string): Json
  {
    List([Object(map["key" := Str(key), "path" := Str(key)])])
  }

  function TemplateVolume(name: string, key: string): Json
  {
    Object(map["name" := Str(name), "configMap" := Object(map["items" := ConfigItems(key)])])
  }

  function ConfigMounts(volume: string): Json
  {
    List([Object(map["name" := Str(volume), "mountPath" := Str("/app/config")])])
  }

  function Requests(cpu: string, memory: string): Json
  {
    Object(map["requests" := Object(map["cpu" := Str(cpu), "memory" := Str(memory)])])
  }

  /** A container of the template: no image and no ports yet. */
  function TemplateContainer(name: string, volume: string, cpu: string, memory: string): Json
  {
    Object(map[
      "name" := Str(name),
      "volumeMounts" := ConfigMounts(volume),
      "ports" := List([]),
      "resources" := Requests(cpu, memory)])
  }

  const IntroducerVolume := TemplateVolume("introducer-config-volume", "introducer.json")
  const StorageVolume := TemplateVolume("storage-config-volume", "storage.json")
  const IntroducerContainer := TemplateContainer("introducer", "introducer-config-volume", "5m", "64Mi")
  const StorageContainer := TemplateContainer("storageserver", "storage-config-volume", "15m", "128Mi")

  function PodSpecTemplate(): Json
  {
    Object(map[
      "volumes" := List([IntroducerVolume, StorageVolume]),
      "containers" := List([IntroducerContainer, StorageContainer])])
  }

  function PodTemplate(): Json
  {
    Object(map["metadata" := CustomerMetadata(), "spec" := PodSpecTemplate()])
  }

  /** `_deployment_template`: one replica, two revisions of history, an empty selector, and
      a pod of two containers, each mounting its own ConfigMap volume. */
  function DeploymentTemplate(): Json
  {
    DeploymentDoc(CustomerMetadata(), DeploymentSpec(PodTemplate(), Null))
  }

  /** A Deployment with the given metadata and spec and no status. */
  function DeploymentDoc(metadata: Json, spec: Json): Json
  {
    Object(map["kind" := Str("Deployment"), "metadata" := metadata, "status" := Null, "spec" := spec])
  }

  lemma DocWithMetadata(md: Json, md2: Json, spec: Json)
    ensures DeploymentDoc(md, spec).fields["metadata" := md2] == DeploymentDoc(md2, spec).fields
  {
  }

  lemma DocWithSpec(md: Json, spec: Json, spec2: Json)
    ensures DeploymentDoc(md, spec).fields["spec" := spec2] == DeploymentDoc(md, spec2).fields
  {
  }

  /** A Deployment spec of one replica and two revisions of history. */
  function DeploymentSpec(template: Json, matchLabels: Json): Json
  {
    Object(map[
      "replicas" := Int(1),
      "selector" := Object(map["matchExpressions" := Null, "matchLabels" := matchLabels]),
      "revisionHistoryLimit" := Int(2),
      "template" := template])
  }

  lemma SpecWithSelector(t: Json, labels: Json, labels2: Json)
    ensures DeploymentSpec(t, labels).fields["selector" := Object(map["matchExpressions" := Null, "matchLabels" := labels2])]
      == DeploymentSpec(t, labels2).fields
  {
  }

  lemma SpecWithTemplate(t: Json, t2: Json, labels: Json)
    ensures DeploymentSpec(t, labels).fields["template" := t2] == DeploymentSpec(t2, labels).fields
  {
  }

  function ContainerPort(name: string, port: int): Json
  {
    Object(map["name" := Str(name), "containerPort" := Int(port)])
  }

  function SetTo(path: seq<Seg>, v: Json): Rule
  {
    Rule(path, Value(v))
  }

  /** The first batch of `create_deployment`, in its order, with the prefix shared by
      neighbouring paths written once: `metadata.namespace`, `metadata.name`,
      `metadata.labels.subscription`, `spec.template.metadata.labels.subscription`,
      `spec.template.spec.volumes.*.configMap.name`, the two images and the two ports under
      `spec.template.spec.containers`, `spec.template` (annotated as a whole), then the
      annotations of the Deployment's own metadata. */
  function DeploymentRules(config: DeploymentConfiguration, details: SubscriptionDetails): seq<Rule>
  {
    Under([Key("metadata")], MetadataRules(config, details))
    + Under([Key("spec"), Key("template")], PodTemplateRules(config, details))
    + SubscriptionMetadata(details)
  }

  /** The rules of the first batch below `metadata`. */
  function MetadataRules(config: DeploymentConfiguration, details: SubscriptionDetails): seq<Rule>
  {
    var id := details.subscriptionId;
    [SetTo([Key("namespace")], Str(config.kubernetesNamespace)),
     SetTo([Key("name")], Str(DeploymentName(id))),
     SetTo([Key("labels"), Key("subscription")], Str(Sanitize(id)))]
  }

  /** The rules of the first batch below `spec.template`; the last one annotates the pod
      template as a whole. */
  function PodTemplateRules(config: DeploymentConfiguration, details: SubscriptionDetails): seq<Rule>
  {
    [LabelRule(Sanitize(details.subscriptionId))]
    + Under([Key("spec")], PodSpecRules(config, details))
    + [AnnotateRule(details)]
  }

  function LabelRule(lbl: string): Rule
  {
    SetTo([Key("metadata"), Key("labels"), Key("subscription")], Str(lbl))
  }

  /** Annotates the node the rule is applied to with `subscription_metadata`. */
  function AnnotateRule(details: SubscriptionDetails): Rule
  {
    Rule([], Apply(t => Transform(t, SubscriptionMetadata(details))))
  }

  /** The rules of the first batch below `spec.template.spec`. */
  function PodSpecRules(config: DeploymentConfiguration, details: SubscriptionDetails): seq<Rule>
  {
    [VolumesRule(ConfigmapName(details.subscriptionId))]
    + Under([Key("containers")], ContainerRules(config, details))
  }

  function VolumesRule(cm: string): Rule
  {
    SetTo([Key("volumes"), Any, Key("configMap"), Key("name")], Str(cm))
  }

  /** The rules of the first batch below `spec.template.spec.containers`. */
  function ContainerRules(config: DeploymentConfiguration, details: SubscriptionDetails): seq<Rule>
  {
    ContainerSets(Str(config.introducerImage), Str(config.storageserverImage),
                  ContainerPort("introducer", details.introducerPortNumber),
                  ContainerPort("storage", details.storagePortNumber))
  }

  /** Sets the images of the two containers, then their first ports. */
  function ContainerSets(i0: Json, i1: Json, p0: Json, p1: Json): seq<Rule>
  {
    SlotPair([Key("image")], i0, i1) + SlotPair([Key("ports"), At(0)], p0, p1)
  }

  /** Sets the value at `q` in container 0, then in container 1. */
  function SlotPair(q: seq<Seg>, v0: Json, v1: Json): seq<Rule>
  {
    [SetTo([At(0)] + q, v0), SetTo([At(1)] + q, v1)]
  }

  /** `create_deployment`: the template rewritten by the first batch, then its selector set
      to the labels the Deployment ended up with. */
  function CreateDeployment(config: DeploymentConfiguration, details: SubscriptionDetails): Result<Json>
  {
    SelectLabels(Transform(DeploymentTemplate(), DeploymentRules(config, details)))
  }

  /** The second step of `create_deployment`: `spec.selector.matchLabels` becomes the
      document's `metadata.labels`, whose absence is a `MissingKey` failure. */
  function SelectLabels(d: Result<Json>): Result<Json>
  {
    if d.Err? then d
    else
      match Get(d.value, [Key("metadata"), Key("labels")])
      case None => Err(MissingKey)
      case Some(labels) =>
        Transform(d.value, [SetTo([Key("spec"), Key("selector"), Key("matchLabels")], labels)])
  }

  // The Deployment `create_deployment` builds, written out.

  function SubscriptionLabels(id: seq<byte>): map<string, Json>
  {
    CustomerLabels["subscription" := Str(Sanitize(id))]
  }

  function DeployedVolume(name: string, key: string, configMap: string): Json
  {
    Object(map["name" := Str(name), "configMap" := Object(map["items" := ConfigItems(key), "name" := Str(configMap)])])
  }

  function DeployedContainer(name: string, volume: string, cpu: string, memory: string,
                             image: string, port: Json): Json
  {
    Object(map[
      "name" := Str(name),
      "volumeMounts" := ConfigMounts(volume),
      "ports" := List([port]),
      "resources" := Requests(cpu, memory),
      "image" := Str(image)])
  }

  function DeployedPodSpec(config: DeploymentConfiguration, details: SubscriptionDetails): Json
  {
    var cm := ConfigmapName(details.subscriptionId);
    Object(map[
      "volumes" := List([
        DeployedVolume("introducer-config-volume", "introducer.json", cm),
        DeployedVolume("storage-config-volume", "storage.json", cm)]),
      "containers" := List([
        DeployedContainer("introducer", "introducer-config-volume", "5m", "64Mi",
                          config.introducerImage, ContainerPort("introducer", details.introducerPortNumber)),
        DeployedContainer("storageserver", "storage-config-volume", "15m", "128Mi",
                          config.storageserverImage, ContainerPort("storage", details.storagePortNumber))])])
  }

  function DeployedPodTemplate(config: DeploymentConfiguration, details: SubscriptionDetails): Json
  {
    Object(map[
      "metadata" := Object(map[
        "labels" := Object(SubscriptionLabels(details.subscriptionId)),
        "annotations" := Object(Annotations(details))]),
      "spec" := DeployedPodSpec(config, details)])
  }

  function DeployedMetadata(config: DeploymentConfiguration, details: SubscriptionDetails): Json
  {
    Object(map[
      "labels" := Object(SubscriptionLabels(details.subscriptionId)),
      "namespace" := Str(config.kubernetesNamespace),
      "name" := Str(DeploymentName(details.subscriptionId)),
      "annotations" := Object(Annotations(details))])
  }

  function DeploymentFor(config: DeploymentConfiguration, details: SubscriptionDetails): Json
  {
    DeploymentDoc(DeployedMetadata(config, details),
                  DeploymentSpec(DeployedPodTemplate(config, details), Object(SubscriptionLabels(details.subscriptionId))))
  }

  // ---------------------------------------------------------------------------
  // The first batch, piece by piece.

  lemma {:induction false} MetadataBatch(ns: string, name: string, lbl: string)
    ensures Transform(CustomerMetadata(),
      [SetTo([Key("namespace")], Str(ns)), SetTo([Key("name")], Str(name)),
       SetTo([Key("labels"), Key("subscription")], Str(lbl))])
      == Ok(Object(map["labels" := Object(CustomerLabels["subscription" := Str(lbl)]),
                       "namespace" := Str(ns), "name" := Str(name)]))
  {
    var rules := [SetTo([Key("namespace")], Str(ns)), SetTo([Key("name")], Str(name)),
                  SetTo([Key("labels"), Key("subscription")], Str(lbl))];
    var m0 := CustomerMetadata().fields;
    assert Update(CustomerMetadata(), rules[0].path, rules[0].with) == Ok(Object(m0["namespace" := Str(ns)]));
    var m1 := m0["namespace" := Str(ns)];
    assert Update(Object(m1), rules[1].path, rules[1].with) == Ok(Object(m1["name" := Str(name)]));
    var m2 := m1["name" := Str(name)];
    var labels := Object(CustomerLabels["subscription" := Str(lbl)]);
    assert Update(Object(m2), rules[2].path, rules[2].with) == Ok(Object(m2["labels" := labels]));
    var m3 := m2["labels" := labels];
    assert rules[1..][1..] == rules[2..] && rules[2..][1..] == [];
    assert Transform(Object(m2), rules[2..]) == Ok(Object(m3));
    assert Transform(Object(m1), rules[1..]) == Ok(Object(m3));
    assert m3 == map["labels" := labels, "namespace" := Str(ns), "name" := Str(name)];
  }

  lemma VolumeBatch(name: string, key: string, cm: string)
    ensures Update(TemplateVolume(name, key), [Key("configMap"), Key("name")], Value(Str(cm)))
      == Ok(DeployedVolume(name, key, cm))
  {
    var v := TemplateVolume(name, key);
    var c := Object(map["items" := ConfigItems(key)]);
    assert Update(c, [Key("name")], Value(Str(cm))) == Ok(Object(map["items" := ConfigItems(key), "name" := Str(cm)]));
    assert v.fields["configMap" := Object(map["items" := ConfigItems(key), "name" := Str(cm)])]
      == DeployedVolume(name, key, cm).fields;
  }

  lemma VolumesBatch(cm: string)
    ensures Update(List([IntroducerVolume, StorageVolume]), [Any, Key("configMap"), Key("name")], Value(Str(cm)))
      == Ok(List([DeployedVolume("introducer-config-volume", "introducer.json", cm),
                  DeployedVolume("storage-config-volume", "storage.json", cm)]))
  {
    var xs := [IntroducerVolume, StorageVolume];
    var rest := [Key("configMap"), Key("name")];
    VolumeBatch("introducer-config-volume", "introducer.json", cm);
    VolumeBatch("storage-config-volume", "storage.json", cm);
    var y0 := DeployedVolume("introducer-config-volume", "introducer.json", cm);
    var y1 := DeployedVolume("storage-config-volume", "storage.json", cm);
    var all := seq(2, _ => true);
    assert all == [true, true];
    assert xs[1..] == [StorageVolume] && all[1..] == [true];
    assert UpdateItems(xs[1..][1..], all[1..][1..], rest, Value(Str(cm))) == Ok([]);
    assert Update(xs[1..][0], rest, Value(Str(cm))) == Ok(y1);
    assert [y1] + [] == [y1];
    assert UpdateItems(xs[1..], all[1..], rest, Value(Str(cm))) == Ok([y1]);
    assert Update(xs[0], rest, Value(Str(cm))) == Ok(y0);
    assert [y0] + [y1] == [y0, y1];
    assert UpdateItems(xs, all, rest, Value(Str(cm))) == Ok([y0, y1]);
  }

  /** A template container with its image set but no port yet. */
  function ImagedContainer(name: string, volume: string, cpu: string, memory: string, image: string): Json
  {
    Object(TemplateContainer(name, volume, cpu, memory).fields["image" := Str(image)])
  }

  lemma ContainerImage(name: string, volume: string, cpu: string, memory: string, image: string)
    ensures Update(TemplateContainer(name, volume, cpu, memory), [Key("image")], Value(Str(image)))
      == Ok(ImagedContainer(name, volume, cpu, memory, image))
  {
    var c := TemplateContainer(name, volume, cpu, memory);
    assert [Key("image")][1..] == [];
    assert Update(Child(c.fields, "image"), [], Value(Str(image))) == Ok(Str(image));
  }

  lemma ContainerPortSet(name: string, volume: string, cpu: string, memory: string, image: string, port: Json)
    ensures Update(ImagedContainer(name, volume, cpu, memory, image), [Key("ports"), At(0)], Value(port))
      == Ok(DeployedContainer(name, volume, cpu, memory, image, port))
  {
    var x := ImagedContainer(name, volume, cpu, memory, image);
    assert Child(x.fields, "ports") == List([]);
    var ps: seq<Json> := [];
    assert [Key("ports"), At(0)][1..] == [At(0)];
    assert [At(0)][1..] == [];
    assert Update(Empty, [], Value(port)) == Ok(port);
    assert ps + [port] == [port];
    assert Update(List(ps), [At(0)], Value(port)) == Ok(List([port]));
    DeployedContainerFields(name, volume, cpu, memory, image, port);
  }

  lemma DeployedContainerFields(name: string, volume: string, cpu: string, memory: string, image: string, port: Json)
    ensures ImagedContainer(name, volume, cpu, memory, image).fields["ports" := List([port])]
      == DeployedContainer(name, volume, cpu, memory, image, port).fields
  {
  }

  lemma ContainersBatch(img0: string, img1: string, port0: int, port1: int)
    ensures Transform(List([IntroducerContainer, StorageContainer]),
      ContainerSets(Str(img0), Str(img1), ContainerPort("introducer", port0), ContainerPort("storage", port1)))
      == Ok(List([
        DeployedContainer("introducer", "introducer-config-volume", "5m", "64Mi", img0, ContainerPort("introducer", port0)),
        DeployedContainer("storageserver", "storage-config-volume", "15m", "128Mi", img1, ContainerPort("storage", port1))]))
  {
    ContainerImage("introducer", "introducer-config-volume", "5m", "64Mi", img0);
    ContainerImage("storageserver", "storage-config-volume", "15m", "128Mi", img1);
    ContainerPortSet("introducer", "introducer-config-volume", "5m", "64Mi", img0, ContainerPort("introducer", port0));
    ContainerPortSet("storageserver", "storage-config-volume", "15m", "128Mi", img1, ContainerPort("storage", port1));
    TwoContainers(IntroducerContainer, StorageContainer,
      ImagedContainer("introducer", "introducer-config-volume", "5m", "64Mi", img0),
      ImagedContainer("storageserver", "storage-config-volume", "15m", "128Mi", img1),
      DeployedContainer("introducer", "introducer-config-volume", "5m", "64Mi", img0, ContainerPort("introducer", port0)),
      DeployedContainer("storageserver", "storage-config-volume", "15m", "128Mi", img1, ContainerPort("storage", port1)),
      Str(img0), Str(img1), ContainerPort("introducer", port0), ContainerPort("storage", port1));
  }

  /** Setting the images, then the ports, of a list of two containers. */
  lemma TwoContainers(c0: Json, c1: Json, a0: Json, a1: Json, b0: Json, b1: Json,
                      i0: Json, i1: Json, p0: Json, p1: Json)
    requires Update(c0, [Key("image")], Value(i0)) == Ok(a0) && Update(c1, [Key("image")], Value(i1)) == Ok(a1)
    requires Update(a0, [Key("ports"), At(0)], Value(p0)) == Ok(b0)
    requires Update(a1, [Key("ports"), At(0)], Value(p1)) == Ok(b1)
    ensures Transform(List([c0, c1]), ContainerSets(i0, i1, p0, p1)) == Ok(List([b0, b1]))
  {
    var image, port := [Key("image")], [Key("ports"), At(0)];
    TwoSlots(c0, c1, a0, a1, image, image, Value(i0), Value(i1), SlotPair(port, p0, p1));
    assert SlotPair(port, p0, p1) == SlotPair(port, p0, p1) + [];
    TwoSlots(a0, a1, b0, b1, port, port, Value(p0), Value(p1), []);
  }

  /** Rules for slot 0 and then slot 1 of a two-item list update those two items. */
  lemma TwoSlots(x0: Json, x1: Json, y0: Json, y1: Json, q0: seq<Seg>, q1: seq<Seg>,
                 w0: Replacement, w1: Replacement, rest: seq<Rule>)
    requires Update(x0, q0, w0) == Ok(y0) && Update(x1, q1, w1) == Ok(y1)
    ensures Transform(List([x0, x1]), [Rule([At(0)] + q0, w0), Rule([At(1)] + q1, w1)] + rest)
      == Transform(List([y0, y1]), rest)
  {
    var rules := [Rule([At(0)] + q0, w0), Rule([At(1)] + q1, w1)] + rest;
    ItemSet(x0, x1, y0, y1);
    assert rules[1..][1..] == rest;
    TransformAt([x0, x1], 0, q0, w0, y0, rules);
    TransformAt([y0, x1], 1, q1, w1, y1, rules[1..]);
  }

  lemma ItemSet(x0: Json, x1: Json, y0: Json, y1: Json)
    ensures [x0, x1][0 := y0] == [y0, x1] && [y0, x1][1 := y1] == [y0, y1]
  {
  }

  /** The pod spec with its volumes pointed at the ConfigMap, containers untouched. */
  function PodSpecPointed(cm: string): Json
  {
    Object(PodSpecTemplate().fields["volumes" := List([
      DeployedVolume("introducer-config-volume", "introducer.json", cm),
      DeployedVolume("storage-config-volume", "storage.json", cm)])])
  }

  lemma PodSpecVolumes(cm: string)
    ensures Transform(PodSpecTemplate(), [VolumesRule(cm)]) == Ok(PodSpecPointed(cm))
  {
    TransformOne(PodSpecTemplate(), VolumesRule(cm));
    VolumesBatch(cm);
  }

  lemma ContainerRulesBatch(config: DeploymentConfiguration, details: SubscriptionDetails)
    ensures Transform(List([IntroducerContainer, StorageContainer]), ContainerRules(config, details))
      == Ok(DeployedPodSpec(config, details).fields["containers"])
  {
    ContainersBatch(config.introducerImage, config.storageserverImage,
                    details.introducerPortNumber, details.storagePortNumber);
  }

  lemma PodSpecContainers(config: DeploymentConfiguration, details: SubscriptionDetails)
    ensures Transform(PodSpecPointed(ConfigmapName(details.subscriptionId)),
                      Under([Key("containers")], ContainerRules(config, details)))
      == Ok(DeployedPodSpec(config, details))
  {
    var m := PodSpecPointed(ConfigmapName(details.subscriptionId)).fields;
    var cs := DeployedPodSpec(config, details).fields["containers"];
    PointedContainers(config, details);
    KeyBatch(m, "containers", ContainerRules(config, details), cs);
    PodSpecFields(config, details);
  }

  lemma PointedContainers(config: DeploymentConfiguration, details: SubscriptionDetails)
    ensures var m := PodSpecPointed(ConfigmapName(details.subscriptionId)).fields;
      Transform(Child(m, "containers"), ContainerRules(config, details)) == Ok(DeployedPodSpec(config, details).fields["containers"])
  {
    var m := PodSpecPointed(ConfigmapName(details.subscriptionId)).fields;
    assert Child(m, "containers") == List([IntroducerContainer, StorageContainer]);
    ContainerRulesBatch(config, details);
  }

  /** The deployed pod spec is the pointed one with the containers replaced. */
  lemma PodSpecFields(config: DeploymentConfiguration, details: SubscriptionDetails)
    ensures var m := PodSpecPointed(ConfigmapName(details.subscriptionId)).fields;
      m["containers" := DeployedPodSpec(config, details).fields["containers"]] == DeployedPodSpec(config, details).fields
  {
    var spec := DeployedPodSpec(config, details);
    SpecFieldsReplaced(PodSpecTemplate().fields["volumes"], PodSpecTemplate().fields["containers"],
                       spec.fields["volumes"], spec.fields["containers"]);
  }

  /** Replacing both fields of a two-field pod spec gives the spec of the new fields. */
  lemma SpecFieldsReplaced(v0: Json, c0: Json, v: Json, c: Json)
    ensures map["volumes" := v0, "containers" := c0]["volumes" := v]["containers" := c]
      == map["volumes" := v, "containers" := c]
  {
  }

  lemma PodSpecBatch(config: DeploymentConfiguration, details: SubscriptionDetails)
    ensures Transform(PodSpecTemplate(), PodSpecRules(config, details)) == Ok(DeployedPodSpec(config, details))
  {
    var cm := ConfigmapName(details.subscriptionId);
    var rules := PodSpecRules(config, details);
    TransformSplit(PodSpecTemplate(), rules, 1);
    assert rules[..1] == [VolumesRule(cm)];
    assert rules[1..] == Under([Key("containers")], ContainerRules(config, details));
    PodSpecVolumes(cm);
    PodSpecContainers(config, details);
  }

  /** The pod template with the subscription label set. */
  function LabelledPodTemplate(lbl: string): Json
  {
    Object(map["metadata" := Object(map["labels" := Object(CustomerLabels["subscription" := Str(lbl)])]),
               "spec" := PodSpecTemplate()])
  }

  /** The labelled pod template with its spec rewritten. */
  function SpeccedPodTemplate(config: DeploymentConfiguration, details: SubscriptionDetails): Json
  {
    Object(map[
      "metadata" := Object(map["labels" := Object(SubscriptionLabels(details.subscriptionId))]),
      "spec" := DeployedPodSpec(config, details)])
  }

  lemma PodTemplateLabel(lbl: string)
    ensures Transform(PodTemplate(), [LabelRule(lbl)]) == Ok(LabelledPodTemplate(lbl))
  {
    var labels := Object(CustomerLabels["subscription" := Str(lbl)]);
    TransformOne(PodTemplate(), LabelRule(lbl));
    assert Update(Object(CustomerLabels), [Key("subscription")], Value(Str(lbl))) == Ok(labels);
    assert [Key("labels"), Key("subscription")][1..] == [Key("subscription")];
    assert Child(CustomerMetadata().fields, "labels") == Object(CustomerLabels);
    assert CustomerMetadata().fields["labels" := labels] == map["labels" := labels];
    assert Update(CustomerMetadata(), [Key("labels"), Key("subscription")], Value(Str(lbl)))
      == Ok(Object(map["labels" := labels]));
    PodTemplateLabelFields(lbl);
  }

  lemma PodTemplateLabelFields(lbl: string)
    ensures PodTemplate().fields["metadata" := Object(map["labels" := Object(CustomerLabels["subscription" := Str(lbl)])])]
      == LabelledPodTemplate(lbl).fields
  {
  }

  lemma PodTemplateSpec(config: DeploymentConfiguration, details: SubscriptionDetails)
    ensures Transform(LabelledPodTemplate(Sanitize(details.subscriptionId)), Under([Key("spec")], PodSpecRules(config, details)))
      == Ok(SpeccedPodTemplate(config, details))
  {
    var m := LabelledPodTemplate(Sanitize(details.subscriptionId)).fields;
    assert Child(m, "spec") == PodSpecTemplate();
    PodSpecBatch(config, details);
    KeyBatch(m, "spec", PodSpecRules(config, details), DeployedPodSpec(config, details));
    PodTemplateSpecFields(config, details);
  }

  lemma PodTemplateSpecFields(config: DeploymentConfiguration, details: SubscriptionDetails)
    ensures LabelledPodTemplate(Sanitize(details.subscriptionId)).fields["spec" := DeployedPodSpec(config, details)]
      == SpeccedPodTemplate(config, details).fields
  {
  }

  lemma PodTemplateAnnotate(config: DeploymentConfiguration, details: SubscriptionDetails)
    ensures Transform(SpeccedPodTemplate(config, details), [AnnotateRule(details)])
      == Ok(DeployedPodTemplate(config, details))
  {
    var d := SpeccedPodTemplate(config, details);
    TransformOne(d, AnnotateRule(details));
    Annotate(d, details);
    AnnotationsSet(details);
    PodTemplateAnnotateFields(config, details);
  }

  lemma PodTemplateAnnotateFields(config: DeploymentConfiguration, details: SubscriptionDetails)
    ensures var d := SpeccedPodTemplate(config, details);
      d.fields["metadata" := Object(d.fields["metadata"].fields["annotations" := Object(Annotations(details))])]
      == DeployedPodTemplate(config, details).fields
  {
    AnnotatedFields(Object(SubscriptionLabels(details.subscriptionId)), DeployedPodSpec(config, details),
                    Object(Annotations(details)));
  }

  lemma AnnotatedFields(labels: Json, spec: Json, annotations: Json)
    ensures var m := map["metadata" := Object(map["labels" := labels]), "spec" := spec];
      m["metadata" := Object(m["metadata"].fields["annotations" := annotations])]
      == map["metadata" := Object(map["labels" := labels, "annotations" := annotations]), "spec" := spec]
  {
  }

  /** The rules below `spec.template` turn the pod template into the deployed one. */
  lemma PodTemplateBatch(config: DeploymentConfiguration, details: SubscriptionDetails)
    ensures Transform(PodTemplate(), PodTemplateRules(config, details)) == Ok(DeployedPodTemplate(config, details))
  {
    var lbl := Sanitize(details.subscriptionId);
    var spec := Under([Key("spec")], PodSpecRules(config, details));
    TransformAppend(PodTemplate(), [LabelRule(lbl)] + spec, [AnnotateRule(details)]);
    TransformAppend(PodTemplate(), [LabelRule(lbl)], spec);
    PodTemplateLabel(lbl);
    PodTemplateSpec(config, details);
    PodTemplateAnnotate(config, details);
  }

  // ---------------------------------------------------------------------------
  // The whole Deployment.

  /** The Deployment's own metadata after the first three rules: labelled and named. */
  function NamedMetadata(config: DeploymentConfiguration, details: SubscriptionDetails): Json
  {
    Object(map[
      "labels" := Object(SubscriptionLabels(details.subscriptionId)),
      "namespace" := Str(config.kubernetesNamespace),
      "name" := Str(DeploymentName(details.subscriptionId))])
  }

  lemma DocMetadata(md: Json, spec: Json, rules: seq<Rule>, md2: Json)
    requires rules != [] && Transform(md, rules) == Ok(md2)
    ensures Transform(DeploymentDoc(md, spec), Under([Key("metadata")], rules)) == Ok(DeploymentDoc(md2, spec))
  {
    var m := DeploymentDoc(md, spec).fields;
    assert Child(m, "metadata") == md;
    KeyBatch(m, "metadata", rules, md2);
    DocWithMetadata(md, md2, spec);
  }

  lemma DocTemplate(md: Json, t: Json, labels: Json, rules: seq<Rule>, t2: Json)
    requires rules != [] && Transform(t, rules) == Ok(t2)
    ensures Transform(DeploymentDoc(md, DeploymentSpec(t, labels)), Under([Key("spec"), Key("template")], rules))
      == Ok(DeploymentDoc(md, DeploymentSpec(t2, labels)))
  {
    var d := DeploymentDoc(md, DeploymentSpec(t, labels));
    var a := [Key("spec"), Key("template")];
    assert a[1..] == [Key("template")] && a[1..][1..] == [];
    assert Reaches(d, a);
    assert Get(DeploymentSpec(t, labels), a[1..]) == Some(t);
    assert Get(d, a) == Get(d.fields["spec"], a[1..]);
    TransformBelow(d, a, rules);
    var s := DeploymentSpec(t, labels);
    assert Update(s, a[1..], Value(t2)) == Ok(Object(s.fields["template" := t2]));
    SpecWithTemplate(t, t2, labels);
    DocWithSpec(md, s, DeploymentSpec(t2, labels));
  }

  lemma DocAnnotate(config: DeploymentConfiguration, details: SubscriptionDetails, spec: Json)
    ensures Transform(DeploymentDoc(NamedMetadata(config, details), spec), SubscriptionMetadata(details))
      == Ok(DeploymentDoc(DeployedMetadata(config, details), spec))
  {
    NamedMetadataAnnotated(config, details);
    DocAnnotateAny(NamedMetadata(config, details), spec, details);
  }

  lemma DocAnnotateAny(md: Json, spec: Json, details: SubscriptionDetails)
    requires md.Object? && "annotations" !in md.fields
    ensures Transform(DeploymentDoc(md, spec), SubscriptionMetadata(details))
      == Ok(DeploymentDoc(Object(md.fields["annotations" := Object(Annotations(details))]), spec))
  {
    var d := DeploymentDoc(md, spec);
    var md2 := Object(md.fields["annotations" := Object(Annotations(details))]);
    assert d.fields["metadata"] == md;
    Annotate(d, details);
    AnnotationsSet(details);
    DocWithMetadata(md, md2, spec);
  }

  lemma NamedMetadataAnnotated(config: DeploymentConfiguration, details: SubscriptionDetails)
    ensures NamedMetadata(config, details).fields["annotations" := Object(Annotations(details))]
      == DeployedMetadata(config, details).fields
  {
  }

  lemma DocSelector(md: Json, t: Json, labels: Json)
    ensures Transform(DeploymentDoc(md, DeploymentSpec(t, Null)),
                      [SetTo([Key("spec"), Key("selector"), Key("matchLabels")], labels)])
      == Ok(DeploymentDoc(md, DeploymentSpec(t, labels)))
  {
    var rule := SetTo([Key("spec"), Key("selector"), Key("matchLabels")], labels);
    TransformOne(DeploymentDoc(md, DeploymentSpec(t, Null)), rule);
    var sel := Object(map["matchExpressions" := Null, "matchLabels" := Null]);
    assert rule.path[1..] == [Key("selector"), Key("matchLabels")];
    assert rule.path[1..][1..] == [Key("matchLabels")];
    assert Child(sel.fields, "matchLabels") == Null;
    assert [Key("matchLabels")][1..] == [];
    assert Update(Null, [], Value(labels)) == Ok(labels);
    assert sel.fields["matchLabels" := labels] == map["matchExpressions" := Null, "matchLabels" := labels];
    assert Update(sel, [Key("matchLabels")], Value(labels))
      == Ok(Object(map["matchExpressions" := Null, "matchLabels" := labels]));
    var s := DeploymentSpec(t, Null);
    assert Update(s, rule.path[1..], rule.with)
      == Ok(Object(s.fields["selector" := Object(map["matchExpressions" := Null, "matchLabels" := labels])]));
    SpecWithSelector(t, Null, labels);
    var d := DeploymentDoc(md, s);
    assert Child(d.fields, "spec") == s;
    DocWithSpec(md, s, DeploymentSpec(t, labels));
  }

  lemma MetadataRulesBatch(config: DeploymentConfiguration, details: SubscriptionDetails)
    ensures Transform(CustomerMetadata(), MetadataRules(config, details)) == Ok(NamedMetadata(config, details))
  {
    var id := details.subscriptionId;
    MetadataBatch(config.kubernetesNamespace, DeploymentName(id), Sanitize(id));
  }


  /** The first batch of `create_deployment` turns the template into the Deployment with
      everything but its selector. */
  lemma FirstBatch(config: DeploymentConfiguration, details: SubscriptionDetails)
    ensures Transform(DeploymentTemplate(), DeploymentRules(config, details))
      == Ok(DeploymentDoc(DeployedMetadata(config, details), DeploymentSpec(DeployedPodTemplate(config, details), Null)))
  {
    var rules := DeploymentRules(config, details);
    var r1 := Under([Key("metadata")], MetadataRules(config, details));
    var r2 := Under([Key("spec"), Key("template")], PodTemplateRules(config, details));
    var named := NamedMetadata(config, details);
    var pod := DeployedPodTemplate(config, details);
    TransformAppend(DeploymentTemplate(), r1 + r2, SubscriptionMetadata(details));
    TransformAppend(DeploymentTemplate(), r1, r2);
    MetadataRulesBatch(config, details);
    DocMetadata(CustomerMetadata(), DeploymentSpec(PodTemplate(), Null), MetadataRules(config, details), named);
    PodTemplateBatch(config, details);
    DocTemplate(named, PodTemplate(), Null, PodTemplateRules(config, details), pod);
    DocAnnotate(config, details, DeploymentSpec(pod, Null));
  }

  lemma SelectDocLabels(md: Json, pod: Json, labels: Json)
    requires md.Object? && "labels" in md.fields && md.fields["labels"] == labels
    ensures SelectLabels(Ok(DeploymentDoc(md, DeploymentSpec(pod, Null)))) == Ok(DeploymentDoc(md, DeploymentSpec(pod, labels)))
  {
    var d := DeploymentDoc(md, DeploymentSpec(pod, Null));
    assert [Key("metadata"), Key("labels")][1..] == [Key("labels")];
    assert Get(md, [Key("labels")]) == Some(labels);
    assert Get(d, [Key("metadata"), Key("labels")]) == Some(labels);
    DocSelector(md, pod, labels);
  }

  /** `create_deployment` builds exactly `DeploymentFor`: it never fails. */
  lemma CreateDeploymentShape(config: DeploymentConfiguration, details: SubscriptionDetails)
    ensures CreateDeployment(config, details) == Ok(DeploymentFor(config, details))
  {
    var labels := Object(SubscriptionLabels(details.subscriptionId));
    FirstBatch(config, details);
    MetadataLabels(labels, Str(config.kubernetesNamespace), Str(DeploymentName(details.subscriptionId)),
                   Object(Annotations(details)));
    SelectDocLabels(DeployedMetadata(config, details), DeployedPodTemplate(config, details), labels);
  }

  lemma MetadataLabels(labels: Json, namespace: Json, name: Json, annotations: Json)
    ensures var md := Object(map["labels" := labels, "namespace" := namespace, "name" := name,
                                 "annotations" := annotations]);
      "labels" in md.fields && md.fields["labels"] == labels
  {
  }

  // ---------------------------------------------------------------------------
  // What `create_deployment` promises, read off the Deployment it builds.

  /** A template container with its image set and its one port declared; its name, mounts
      and resources are the template's. */
  function WithImage(c: Json, image: string, port: Json): Json
    requires c.Object?
  {
    Object(c.fields["image" := Str(image)]["ports" := List([port])])
  }

  /** A template volume pointed at the ConfigMap; its name and items are the template's. */
  function PointedAt(v: Json, cm: string): Json
    requires v.Object? && "configMap" in v.fields && v.fields["configMap"].Object?
  {
    Object(v.fields["configMap" := Object(v.fields["configMap"].fields["name" := Str(cm)])])
  }

  /** Still two containers, in template order: the introducer image and port in slot 0,
      the storage server's in slot 1, and nothing else about them changed. */
  lemma DeploymentContainers(config: DeploymentConfiguration, details: SubscriptionDetails)
    ensures var r := CreateDeployment(config, details);
      r.Ok? &&
      Get(r.value, [Key("spec"), Key("template"), Key("spec"), Key("containers")]) == Some(List([
        WithImage(IntroducerContainer, config.introducerImage, ContainerPort("introducer", details.introducerPortNumber)),
        WithImage(StorageContainer, config.storageserverImage, ContainerPort("storage", details.storagePortNumber))]))
  {
    CreateDeploymentShape(config, details);
    DeploymentForContainers(config, details);
  }

  lemma DeploymentForContainers(config: DeploymentConfiguration, details: SubscriptionDetails)
    ensures Get(DeploymentFor(config, details), [Key("spec"), Key("template"), Key("spec"), Key("containers")]) == Some(List([
        WithImage(IntroducerContainer, config.introducerImage, ContainerPort("introducer", details.introducerPortNumber)),
        WithImage(StorageContainer, config.storageserverImage, ContainerPort("storage", details.storagePortNumber))]))
  {
    var p := [Key("containers")];
    assert [Key("spec"), Key("template"), Key("spec")] + p == [Key("spec"), Key("template"), Key("spec"), Key("containers")];
    GetPodSpec(config, details, p);
    GetPodSpecKey(config, details, "containers");
    DeployedContainersFromTemplate(config, details);
  }

  lemma GetPodSpecKey(config: DeploymentConfiguration, details: SubscriptionDetails, k: string)
    requires k in DeployedPodSpec(config, details).fields
    ensures Get(DeployedPodSpec(config, details), [Key(k)]) == Some(DeployedPodSpec(config, details).fields[k])
  {
    assert [Key(k)][1..] == [];
  }

  lemma DeployedContainersFromTemplate(config: DeploymentConfiguration, details: SubscriptionDetails)
    ensures DeployedPodSpec(config, details).fields["containers"] == List([
        WithImage(IntroducerContainer, config.introducerImage, ContainerPort("introducer", details.introducerPortNumber)),
        WithImage(StorageContainer, config.storageserverImage, ContainerPort("storage", details.storagePortNumber))])
  {
    WithImageDeployed("introducer", "introducer-config-volume", "5m", "64Mi",
                      config.introducerImage, ContainerPort("introducer", details.introducerPortNumber));
    WithImageDeployed("storageserver", "storage-config-volume", "15m", "128Mi",
                      config.storageserverImage, ContainerPort("storage", details.storagePortNumber));
  }

  /** A template container given an image and a port is the deployed container. */
  lemma WithImageDeployed(name: string, volume: string, cpu: string, memory: string, image: string, port: Json)
    ensures WithImage(TemplateContainer(name, volume, cpu, memory), image, port)
      == DeployedContainer(name, volume, cpu, memory, image, port)
  {
    assert WithImage(TemplateContainer(name, volume, cpu, memory), image, port).fields
      == DeployedContainer(name, volume, cpu, memory, image, port).fields;
  }

  /** Looking below `spec.template.spec` of the built Deployment is looking into its pod spec. */
  lemma GetPodSpec(config: DeploymentConfiguration, details: SubscriptionDetails, p: seq<Seg>)
    ensures Get(DeploymentFor(config, details), [Key("spec"), Key("template"), Key("spec")] + p)
      == Get(DeployedPodSpec(config, details), p)
  {
    var pod := DeployedPodTemplate(config, details);
    assert pod.fields["spec"] == DeployedPodSpec(config, details);
    GetDocPod(DeployedMetadata(config, details), pod, Object(SubscriptionLabels(details.subscriptionId)), p);
  }

  lemma GetDocPod(md: Json, pod: Json, labels: Json, p: seq<Seg>)
    requires pod.Object? && "spec" in pod.fields
    ensures Get(DeploymentDoc(md, DeploymentSpec(pod, labels)), [Key("spec"), Key("template"), Key("spec")] + p)
      == Get(pod.fields["spec"], p)
  {
    var spec := DeploymentSpec(pod, labels);
    var a := [Key("spec"), Key("template"), Key("spec")] + p;
    assert a == [Key("spec")] + ([Key("template")] + ([Key("spec")] + p));
    GetKey(DeploymentDoc(md, spec), "spec", [Key("template")] + ([Key("spec")] + p));
    GetKey(spec, "template", [Key("spec")] + p);
    GetKey(pod, "spec", p);
  }

  /** Still two volumes, in template order, each now naming the subscription's ConfigMap;
      their names and items are the template's. */
  lemma DeploymentVolumes(config: DeploymentConfiguration, details: SubscriptionDetails)
    ensures var r := CreateDeployment(config, details);
      var cm := ConfigmapName(details.subscriptionId);
      r.Ok? &&
      Get(r.value, [Key("spec"), Key("template"), Key("spec"), Key("volumes")])
        == Some(List([PointedAt(IntroducerVolume, cm), PointedAt(StorageVolume, cm)]))
  {
    CreateDeploymentShape(config, details);
    DeploymentForVolumes(config, details);
  }

  lemma DeploymentForVolumes(config: DeploymentConfiguration, details: SubscriptionDetails)
    ensures var cm := ConfigmapName(details.subscriptionId);
      Get(DeploymentFor(config, details), [Key("spec"), Key("template"), Key("spec"), Key("volumes")])
        == Some(List([PointedAt(IntroducerVolume, cm), PointedAt(StorageVolume, cm)]))
  {
    var p := [Key("volumes")];
    assert [Key("spec"), Key("template"), Key("spec")] + p == [Key("spec"), Key("template"), Key("spec"), Key("volumes")];
    GetPodSpec(config, details, p);
    GetPodSpecKey(config, details, "volumes");
    DeployedVolumesFromTemplate(ConfigmapName(details.subscriptionId));
  }

  lemma DeployedVolumesFromTemplate(cm: string)
    ensures PointedAt(IntroducerVolume, cm) == DeployedVolume("introducer-config-volume", "introducer.json", cm)
    ensures PointedAt(StorageVolume, cm) == DeployedVolume("storage-config-volume", "storage.json", cm)
  {
    assert PointedAt(IntroducerVolume, cm).fields == DeployedVolume("introducer-config-volume", "introducer.json", cm).fields;
    assert PointedAt(StorageVolume, cm).fields == DeployedVolume("storage-config-volume", "storage.json", cm).fields;
  }

  /** The Deployment's labels, its selector and its pod template's labels are one and the
      same: the customer labels plus the sanitized subscription id. */
  lemma DeploymentLabels(config: DeploymentConfiguration, details: SubscriptionDetails)
    ensures var r := CreateDeployment(config, details);
      var labels := Some(Object(CustomerLabels["subscription" := Str(Sanitize(details.subscriptionId))]));
      r.Ok? &&
      Get(r.value, [Key("metadata"), Key("labels")]) == labels &&
      Get(r.value, [Key("spec"), Key("selector"), Key("matchLabels")]) == labels &&
      Get(r.value, [Key("spec"), Key("template"), Key("metadata"), Key("labels")]) == labels
  {
    CreateDeploymentShape(config, details);
    DeploymentForLabels(config, details);
  }

  lemma DeploymentForLabels(config: DeploymentConfiguration, details: SubscriptionDetails)
    ensures var d := DeploymentFor(config, details);
      var labels := Some(Object(CustomerLabels["subscription" := Str(Sanitize(details.subscriptionId))]));
      Get(d, [Key("metadata"), Key("labels")]) == labels &&
      Get(d, [Key("spec"), Key("selector"), Key("matchLabels")]) == labels &&
      Get(d, [Key("spec"), Key("template"), Key("metadata"), Key("labels")]) == labels
  {
    var pod := DeployedPodTemplate(config, details);
    assert pod.fields["metadata"].fields["labels"] == Object(SubscriptionLabels(details.subscriptionId));
    DocLabels(DeployedMetadata(config, details), pod, Object(SubscriptionLabels(details.subscriptionId)));
  }

  /** Where a Deployment keeps its labels. */
  lemma DocLabels(md: Json, pod: Json, labels: Json)
    requires md.Object? && "labels" in md.fields && md.fields["labels"] == labels
    requires pod.Object? && "metadata" in pod.fields && pod.fields["metadata"].Object?
    requires "labels" in pod.fields["metadata"].fields && pod.fields["metadata"].fields["labels"] == labels
    ensures var d := DeploymentDoc(md, DeploymentSpec(pod, labels));
      Get(d, [Key("metadata"), Key("labels")]) == Some(labels) &&
      Get(d, [Key("spec"), Key("selector"), Key("matchLabels")]) == Some(labels) &&
      Get(d, [Key("spec"), Key("template"), Key("metadata"), Key("labels")]) == Some(labels)
  {
    var spec := DeploymentSpec(pod, labels);
    var sel := spec.fields["selector"];
    GetDoc(md, spec, [Key("metadata"), Key("labels")]);
    GetKey(md, "labels", []);
    GetDoc(md, spec, [Key("spec"), Key("selector"), Key("matchLabels")]);
    GetKey(spec, "selector", [Key("matchLabels")]);
    GetKey(sel, "matchLabels", []);
    GetDoc(md, spec, [Key("spec"), Key("template"), Key("metadata"), Key("labels")]);
    GetKey(spec, "template", [Key("metadata"), Key("labels")]);
    GetKey(pod, "metadata", [Key("labels")]);
    GetKey(pod.fields["metadata"], "labels", []);
  }

  /** Looking into a Deployment below its metadata or its spec. */
  lemma GetDoc(md: Json, spec: Json, p: seq<Seg>)
    requires p != [] && p[0] in {Key("metadata"), Key("spec")}
    ensures Get(DeploymentDoc(md, spec), p) == Get(if p[0] == Key("metadata") then md else spec, p[1..])
  {
    assert p == [p[0]] + p[1..];
    GetKey(DeploymentDoc(md, spec), p[0].name, p[1..]);
  }

  /** The Deployment and its pod template carry the same eight annotations. */
  lemma DeploymentAnnotations(config: DeploymentConfiguration, details: SubscriptionDetails)
    ensures var r := CreateDeployment(config, details);
      var notes := Some(Object(SetAll(map[], AnnotationPairs(details))));
      r.Ok? &&
      Get(r.value, [Key("metadata"), Key("annotations")]) == notes &&
      Get(r.value, [Key("spec"), Key("template"), Key("metadata"), Key("annotations")]) == notes
  {
    CreateDeploymentShape(config, details);
    AnnotationsSet(details);
    DeploymentForAnnotations(config, details);
  }

  lemma DeploymentForAnnotations(config: DeploymentConfiguration, details: SubscriptionDetails)
    ensures var d := DeploymentFor(config, details);
      Get(d, [Key("metadata"), Key("annotations")]) == Some(Object(Annotations(details))) &&
      Get(d, [Key("spec"), Key("template"), Key("metadata"), Key("annotations")]) == Some(Object(Annotations(details)))
  {
    var pod := DeployedPodTemplate(config, details);
    assert pod.fields["metadata"].fields["annotations"] == Object(Annotations(details));
    DocAnnotations(DeployedMetadata(config, details), pod, Object(SubscriptionLabels(details.subscriptionId)),
                   Object(Annotations(details)));
  }

  /** Where a Deployment keeps its annotations. */
  lemma DocAnnotations(md: Json, pod: Json, labels: Json, notes: Json)
    requires md.Object? && "annotations" in md.fields && md.fields["annotations"] == notes
    requires pod.Object? && "metadata" in pod.fields && pod.fields["metadata"].Object?
    requires "annotations" in pod.fields["metadata"].fields && pod.fields["metadata"].fields["annotations"] == notes
    ensures var d := DeploymentDoc(md, DeploymentSpec(pod, labels));
      Get(d, [Key("metadata"), Key("annotations")]) == Some(notes) &&
      Get(d, [Key("spec"), Key("template"), Key("metadata"), Key("annotations")]) == Some(notes)
  {
    var spec := DeploymentSpec(pod, labels);
    GetDoc(md, spec, [Key("metadata"), Key("annotations")]);
    GetKey(md, "annotations", []);
    GetDoc(md, spec, [Key("spec"), Key("template"), Key("metadata"), Key("annotations")]);
    GetKey(spec, "template", [Key("metadata"), Key("annotations")]);
    GetKey(pod, "metadata", [Key("annotations")]);
    GetKey(pod.fields["metadata"], "annotations", []);
  }

  /** The Deployment lives in the configured namespace under the subscription's name. */
  lemma DeploymentIdentity(config: DeploymentConfiguration, details: SubscriptionDetails)
    ensures var r := CreateDeployment(config, details);
      r.Ok? &&
      Get(r.value, [Key("kind")]) == Some(Str("Deployment")) &&
      Get(r.value, [Key("metadata"), Key("namespace")]) == Some(Str(config.kubernetesNamespace)) &&
      Get(r.value, [Key("metadata"), Key("name")]) == Some(Str(DeploymentName(details.subscriptionId))) &&
      Get(r.value, [Key("spec"), Key("replicas")]) == Some(Int(1))
  {
    CreateDeploymentShape(config, details);
    DeploymentForIdentity(config, details);
  }

  lemma DeploymentForIdentity(config: DeploymentConfiguration, details: SubscriptionDetails)
    ensures var d := DeploymentFor(config, details);
      Get(d, [Key("kind")]) == Some(Str("Deployment")) &&
      Get(d, [Key("metadata"), Key("namespace")]) == Some(Str(config.kubernetesNamespace)) &&
      Get(d, [Key("metadata"), Key("name")]) == Some(Str(DeploymentName(details.subscriptionId))) &&
      Get(d, [Key("spec"), Key("replicas")]) == Some(Int(1))
  {
    DocIdentity(DeployedMetadata(config, details), DeployedPodTemplate(config, details),
                Object(SubscriptionLabels(details.subscriptionId)),
                Str(config.kubernetesNamespace), Str(DeploymentName(details.subscriptionId)));
  }

  /** Where a Deployment keeps its kind, namespace, name and number of replicas. */
  lemma DocIdentity(md: Json, pod: Json, labels: Json, namespace: Json, name: Json)
    requires md.Object? && "namespace" in md.fields && md.fields["namespace"] == namespace
    requires "name" in md.fields && md.fields["name"] == name
    ensures var d := DeploymentDoc(md, DeploymentSpec(pod, labels));
      Get(d, [Key("kind")]) == Some(Str("Deployment")) &&
      Get(d, [Key("metadata"), Key("namespace")]) == Some(namespace) &&
      Get(d, [Key("metadata"), Key("name")]) == Some(name) &&
      Get(d, [Key("spec"), Key("replicas")]) == Some(Int(1))
  {
    var spec := DeploymentSpec(pod, labels);
    GetKey(DeploymentDoc(md, spec), "kind", []);
    GetDoc(md, spec, [Key("metadata"), Key("namespace")]);
    GetKey(md, "namespace", []);
    GetDoc(md, spec, [Key("metadata"), Key("name")]);
    GetKey(md, "name", []);
    GetDoc(md, spec, [Key("spec"), Key("replicas")]);
    GetKey(spec, "replicas", []);
  }

  // ---------------------------------------------------------------------------
  // The ConfigMap.

  /** The arguments `create_configuration` passes to the Tahoe-LAFS configuration writer. */
  datatype TahoeSettings = TahoeSettings(
    introducerPem: string,
    storagePem: string,
    storagePrivkey: string,
    introducerPort: int,
    storageserverPort: int,
    bucketName: string,
    publichost: string,
    privatehost: string,
    introducerFurl: string,
    s3AccessKeyId: string,
    s3SecretKey: string,
    logGathererFurl: string,
    statsGathererFurl: string)

  /** The settings for one subscription. The storage server's private key comes from the
      legacy secrets and is the only thing that can be missing; the S3 credentials and the
      gatherer fURLs come from the installation's configuration. */
  function TahoeSettingsFor(config: DeploymentConfiguration, details: SubscriptionDetails): (r: Option<TahoeSettings>)
    ensures r.Some? <==> "server_node_privkey" in details.oldSecrets
    ensures r.Some? ==> r.value.storagePrivkey == details.oldSecrets["server_node_privkey"]
    ensures r.Some? ==> r.value.publichost == ConfigmapPublicHost(details.subscriptionId, config.domain)
    ensures r.Some? ==> r.value.s3AccessKeyId == config.s3AccessKeyId && r.value.s3SecretKey == config.s3SecretKey
  {
    if "server_node_privkey" !in details.oldSecrets then None
    else Some(TahoeSettings(
      introducerPem := details.introducerNodePem,
      storagePem := details.serverNodePem,
      storagePrivkey := details.oldSecrets["server_node_privkey"],
      introducerPort := details.introducerPortNumber,
      storageserverPort := details.storagePortNumber,
      bucketName := details.bucketname,
      publichost := ConfigmapPublicHost(details.subscriptionId, config.domain),
      privatehost := config.privateHost,
      introducerFurl := details.externalIntroducerFurl,
      s3AccessKeyId := config.s3AccessKeyId,
      s3SecretKey := config.s3SecretKey,
      logGathererFurl := config.logGathererFurl,
      statsGathererFurl := config.statsGathererFurl))
  }

  /** The legacy secrets are consulted for the storage server's private key only: two
      subscriptions whose legacy secrets agree on that key get the same settings, whatever
      else (old S3 credentials among it) the secrets hold. */
  lemma SettingsIgnoreLegacySecrets(config: DeploymentConfiguration, details: SubscriptionDetails,
                                    secrets: map<string, string>)
    requires ("server_node_privkey" in secrets) == ("server_node_privkey" in details.oldSecrets)
    requires "server_node_privkey" in secrets ==>
               secrets["server_node_privkey"] == details.oldSecrets["server_node_privkey"]
    ensures TahoeSettingsFor(config, details.(oldSecrets := secrets)) == TahoeSettingsFor(config, details)
  {
  }

  /** So is the whole ConfigMap: its contents do not depend on the rest of the legacy
      secrets. */
  lemma ConfigurationIgnoresLegacySecrets(config: DeploymentConfiguration, details: SubscriptionDetails,
                                          secrets: map<string, string>,
                                          marshal: TahoeSettings -> map<string, Json>, dumps: Json -> string)
    requires ("server_node_privkey" in secrets) == ("server_node_privkey" in details.oldSecrets)
    requires "server_node_privkey" in secrets ==>
               secrets["server_node_privkey"] == details.oldSecrets["server_node_privkey"]
    ensures CreateConfiguration(config, details.(oldSecrets := secrets), marshal, dumps)
      == CreateConfiguration(config, details, marshal, dumps)
  {
    var other := details.(oldSecrets := secrets);
    SettingsIgnoreLegacySecrets(config, details, secrets);
    assert Annotations(other) == Annotations(details);
    assert ConfigurationRules(config, other) == ConfigurationRules(config, details);
  }

  /** Within one domain, the public hosts written into two subscriptions' settings differ
      whenever their ids do. */
  lemma SettingsHostsDistinct(config: DeploymentConfiguration, d1: SubscriptionDetails, d2: SubscriptionDetails)
    requires TahoeSettingsFor(config, d1).Some? && TahoeSettingsFor(config, d2).Some?
    requires d1.subscriptionId != d2.subscriptionId
    ensures TahoeSettingsFor(config, d1).value.publichost != TahoeSettingsFor(config, d2).value.publichost
  {
    PublicHostInjective(d1.subscriptionId, d2.subscriptionId, config.domain);
  }

  /** A ConfigMap with the given metadata and no data. */
  function ConfigMapDoc(metadata: Json): Json
  {
    Object(map["kind" := Str("ConfigMap"), "metadata" := metadata])
  }

  function ConfigMapTemplate(): Json
  {
    ConfigMapDoc(CustomerMetadata())
  }

  /** The first batch of `create_configuration`: namespace, name, then the annotations. */
  function ConfigurationRules(config: DeploymentConfiguration, details: SubscriptionDetails): seq<Rule>
  {
    SetRules([Key("metadata")], [("namespace", Str(config.kubernetesNamespace)),
                                 ("name", Str(ConfigmapName(details.subscriptionId)))])
    + SubscriptionMetadata(details)
  }

  /** The second batch: the two configuration files. */
  function DataRules(introducerJson: string, storageJson: string): seq<Rule>
  {
    SetRules([Key("data")], [("introducer.json", Str(introducerJson)), ("storage.json", Str(storageJson))])
  }

  /** `create_configuration`. `marshal` stands for the Tahoe-LAFS configuration writer (it
      yields a dictionary of node sections) and `dumps` for JSON serialization; a legacy
      secrets dictionary without the storage key, or a configuration without an
      `introducer` or a `storage` section, is a `MissingKey` failure. */
  function CreateConfiguration(config: DeploymentConfiguration, details: SubscriptionDetails,
                               marshal: TahoeSettings -> map<string, Json>, dumps: Json -> string): Result<Json>
  {
    match TahoeSettingsFor(config, details)
    case None => Err(MissingKey)
    case Some(settings) =>
      var configuration := marshal(settings);
      var d := Transform(ConfigMapTemplate(), ConfigurationRules(config, details));
      if d.Err? then d
      else if "introducer" !in configuration || "storage" !in configuration then Err(MissingKey)
      else
        Transform(d.value, DataRules(dumps(Object(map["introducer" := configuration["introducer"]])),
                                     dumps(Object(map["storage" := configuration["storage"]]))))
  }

  /** The ConfigMap's metadata: customer labels, namespace, name and the annotations. */
  function ConfigMapMetadata(config: DeploymentConfiguration, details: SubscriptionDetails): Json
  {
    Object(map[
      "labels" := Object(CustomerLabels),
      "namespace" := Str(config.kubernetesNamespace),
      "name" := Str(ConfigmapName(details.subscriptionId)),
      "annotations" := Object(Annotations(details))])
  }

  /** The ConfigMap `create_configuration` builds, written out. */
  function ConfigMapFor(config: DeploymentConfiguration, details: SubscriptionDetails,
                        introducerJson: string, storageJson: string): Json
  {
    Object(map[
      "kind" := Str("ConfigMap"),
      "metadata" := ConfigMapMetadata(config, details),
      "data" := Object(map["introducer.json" := Str(introducerJson), "storage.json" := Str(storageJson)])])
  }

  lemma ConfigurationBatch(config: DeploymentConfiguration, details: SubscriptionDetails)
    ensures Transform(ConfigMapTemplate(), ConfigurationRules(config, details))
      == Ok(ConfigMapDoc(ConfigMapMetadata(config, details)))
  {
    var pairs := [("namespace", Str(config.kubernetesNamespace)), ("name", Str(ConfigmapName(details.subscriptionId)))];
    var r1 := SetRules([Key("metadata")], pairs);
    var rules := ConfigurationRules(config, details);
    assert rules[..|r1|] == r1 && rules[|r1|..] == SubscriptionMetadata(details);
    TransformSplit(ConfigMapTemplate(), rules, |r1|);
    var named := Object(SetAll(CustomerMetadata().fields, pairs));
    ConfigMapMetadataNamed(config, details);
    ConfigMapSet(CustomerMetadata(), [Key("metadata")], pairs);
    ConfigMapAnnotate(named, details);
    ConfigMapMetadataAnnotated(config, details);
  }

  /** Setting keys below the metadata of a ConfigMap. */
  lemma ConfigMapSet(md: Json, a: seq<Seg>, pairs: seq<(string, Json)>)
    requires md.Object? && a == [Key("metadata")] && pairs != []
    ensures Transform(ConfigMapDoc(md), SetRules(a, pairs)) == Ok(ConfigMapDoc(Object(SetAll(md.fields, pairs))))
  {
    var d := ConfigMapDoc(md);
    assert a[1..] == [];
    assert Reaches(d, a);
    assert Get(d, a) == Some(md);
    assert Base(d, a) == md;
    var md2 := Object(SetAll(md.fields, pairs));
    assert Transform(d, SetRules(a, pairs)) == Update(d, a, Value(md2)) by {
      SetUnder(d, a, pairs);
    }
    assert Child(d.fields, "metadata") == md;
    assert Update(md, [], Value(md2)) == Ok(md2);
    assert Update(d, a, Value(md2)) == Ok(Object(d.fields["metadata" := md2]));
    ConfigMapDocFields(md, md2);
  }

  lemma ConfigMapDocFields(md: Json, md2: Json)
    ensures ConfigMapDoc(md).fields["metadata" := md2] == ConfigMapDoc(md2).fields
  {
  }

  lemma ConfigMapMetadataNamed(config: DeploymentConfiguration, details: SubscriptionDetails)
    ensures SetAll(CustomerMetadata().fields, [("namespace", Str(config.kubernetesNamespace)),
                                               ("name", Str(ConfigmapName(details.subscriptionId)))])
      == map["labels" := Object(CustomerLabels), "namespace" := Str(config.kubernetesNamespace),
             "name" := Str(ConfigmapName(details.subscriptionId))]
  {
    var pairs := [("namespace", Str(config.kubernetesNamespace)), ("name", Str(ConfigmapName(details.subscriptionId)))];
    var m1 := CustomerMetadata().fields["namespace" := pairs[0].1];
    var m2 := m1["name" := pairs[1].1];
    assert pairs[1..][1..] == [];
    assert SetAll(m1, pairs[1..]) == m2;
  }

  lemma ConfigMapAnnotate(md: Json, details: SubscriptionDetails)
    requires md.Object? && "annotations" !in md.fields
    ensures Transform(ConfigMapDoc(md), SubscriptionMetadata(details))
      == Ok(ConfigMapDoc(Object(md.fields["annotations" := Object(Annotations(details))])))
  {
    var d := ConfigMapDoc(md);
    var md2 := Object(md.fields["annotations" := Object(Annotations(details))]);
    assert d.fields["metadata"] == md;
    Annotate(d, details);
    AnnotationsSet(details);
    assert d.fields["metadata" := md2] == ConfigMapDoc(md2).fields;
  }

  lemma ConfigMapMetadataAnnotated(config: DeploymentConfiguration, details: SubscriptionDetails)
    ensures (map["labels" := Object(CustomerLabels), "namespace" := Str(config.kubernetesNamespace),
                 "name" := Str(ConfigmapName(details.subscriptionId))])["annotations" := Object(Annotations(details))]
      == ConfigMapMetadata(config, details).fields
  {
  }

  lemma DataBatch(md: Json, introducerJson: string, storageJson: string)
    ensures Transform(ConfigMapDoc(md), DataRules(introducerJson, storageJson))
      == Ok(Object(map["kind" := Str("ConfigMap"), "metadata" := md,
                       "data" := Object(map["introducer.json" := Str(introducerJson), "storage.json" := Str(storageJson)])]))
  {
    var d := ConfigMapDoc(md);
    var a := [Key("data")];
    var pairs := [("introducer.json", Str(introducerJson)), ("storage.json", Str(storageJson))];
    assert a[1..] == [];
    assert Reaches(d, a);
    assert Get(d, a) == None;
    SetUnder(d, a, pairs);
    var m0: map<string, Json> := map[];
    var m1 := m0["introducer.json" := pairs[0].1];
    assert pairs[1..][1..] == [];
    assert SetAll(m1, pairs[1..]) == m1["storage.json" := pairs[1].1];
    var data := Object(map["introducer.json" := Str(introducerJson), "storage.json" := Str(storageJson)]);
    assert SetAll(m0, pairs) == data.fields;
    assert Update(d, a, Value(data)) == Ok(Object(d.fields["data" := data]));
  }

  /** With the legacy storage key present and both sections written, `create_configuration`
      builds exactly `ConfigMapFor`, holding the two sections each serialized on its own. */
  lemma ConfigurationShape(config: DeploymentConfiguration, details: SubscriptionDetails,
                           marshal: TahoeSettings -> map<string, Json>, dumps: Json -> string)
    requires "server_node_privkey" in details.oldSecrets
    requires var c := marshal(TahoeSettingsFor(config, details).value); "introducer" in c && "storage" in c
    ensures var c := marshal(TahoeSettingsFor(config, details).value);
      CreateConfiguration(config, details, marshal, dumps)
        == Ok(ConfigMapFor(config, details, dumps(Object(map["introducer" := c["introducer"]])),
                                            dumps(Object(map["storage" := c["storage"]]))))
  {
    var c := marshal(TahoeSettingsFor(config, details).value);
    var i := dumps(Object(map["introducer" := c["introducer"]]));
    var s := dumps(Object(map["storage" := c["storage"]]));
    ConfigurationBatch(config, details);
    DataBatch(ConfigMapMetadata(config, details), i, s);
  }

  /** `create_configuration` fails exactly when the legacy storage key or one of the two
      sections is missing, and then with `MissingKey`. */
  lemma ConfigurationFails(config: DeploymentConfiguration, details: SubscriptionDetails,
                           marshal: TahoeSettings -> map<string, Json>, dumps: Json -> string)
    ensures var r := CreateConfiguration(config, details, marshal, dumps);
      r.Err? <==> ("server_node_privkey" !in details.oldSecrets ||
                   var c := marshal(TahoeSettingsFor(config, details).value); "introducer" !in c || "storage" !in c)
    ensures var r := CreateConfiguration(config, details, marshal, dumps); r.Err? ==> r.error == MissingKey
  {
    if "server_node_privkey" in details.oldSecrets {
      var c := marshal(TahoeSettingsFor(config, details).value);
      ConfigurationBatch(config, details);
      if "introducer" in c && "storage" in c {
        ConfigurationShape(config, details, marshal, dumps);
      }
    }
  }

  /** The ConfigMap lives in the configured namespace under the subscription's ConfigMap
      name, keeps the plain customer labels, carries the eight annotations, and holds
      exactly the two files `introducer.json` and `storage.json`. */
  lemma ConfigurationContents(config: DeploymentConfiguration, details: SubscriptionDetails,
                              marshal: TahoeSettings -> map<string, Json>, dumps: Json -> string)
    requires "server_node_privkey" in details.oldSecrets
    requires var c := marshal(TahoeSettingsFor(config, details).value); "introducer" in c && "storage" in c
    ensures var r := CreateConfiguration(config, details, marshal, dumps);
      r.Ok? && r.value.Object? && "data" in r.value.fields && "metadata" in r.value.fields &&
      var data := r.value.fields["data"];
      var md := r.value.fields["metadata"];
      data.Object? && data.fields.Keys == {"introducer.json", "storage.json"} &&
      md == Object(map[
        "labels" := Object(CustomerLabels),
        "namespace" := Str(config.kubernetesNamespace),
        "name" := Str(ConfigmapName(details.subscriptionId)),
        "annotations" := Object(Annotations(details))])
  {
    ConfigurationShape(config, details, marshal, dumps);
    var c := marshal(TahoeSettingsFor(config, details).value);
    ConfigMapForFacts(config, details, dumps(Object(map["introducer" := c["introducer"]])),
                      dumps(Object(map["storage" := c["storage"]])));
  }

  lemma ConfigMapForFacts(config: DeploymentConfiguration, details: SubscriptionDetails, i: string, s: string)
    ensures var d := ConfigMapFor(config, details, i, s);
      "data" in d.fields && "metadata" in d.fields &&
      d.fields["data"].Object? && d.fields["data"].fields.Keys == {"introducer.json", "storage.json"} &&
      d.fields["metadata"] == ConfigMapMetadata(config, details)
  {
    var data := map["introducer.json" := Str(i), "storage.json" := Str(s)];
    TwoKeys("introducer.json", "storage.json", Str(i), Str(s));
    assert ConfigMapFor(config, details, i, s).fields["data"] == Object(data);
  }

  lemma TwoKeys(k1: string, k2: string, v1: Json, v2: Json)
    ensures map[k1 := v1, k2 := v2].Keys == {k1, k2}
  {
  }

  // ---------------------------------------------------------------------------
  // The Service.

  const CustomerGridName := "s4-customer-grids"

  /** The idle timeout the load balancer is asked for, in seconds. */
  const IdleTimeoutAnnotation := "service.beta.kubernetes.io/aws-load-balancer-connection-idle-timeout"

  function ServicePort(name: string, port: int): Json
  {
    Object(map["name" := Str(name), "protocol" := Str("TCP"), "port" := Int(port)])
  }

  /** `_customer_grid_service`: a LoadBalancer in front of the infrastructure pods, exposing
      the introducer port 10000 and the storage port 10001. */
  function CustomerGridService(): Json
  {
    var infrastructure := InfrastructureMetadata().value.fields["labels"];
    Object(map[
      "kind" := Str("Service"),
      "metadata" := Object(CustomerMetadata().fields
        ["name" := Str(CustomerGridName)]
        ["annotations" := Object(map[IdleTimeoutAnnotation := Str("3600")])]),
      "spec" := Object(map[
        "type" := Str("LoadBalancer"),
        "selector" := infrastructure,
        "ports" := List([ServicePort("introducer", 10000), ServicePort("storage", 10001)])])])
  }

  /** `new_service`: the shared Service placed in a namespace. */
  function NewService(namespace: string): Result<Json>
  {
    Transform(CustomerGridService(), [SetTo([Key("metadata"), Key("namespace")], Str(namespace))])
  }

  /** The Service `new_service` builds: the customer grid Service with its namespace set
      and nothing else changed. */
  lemma NewServiceShape(namespace: string)
    ensures var g := CustomerGridService();
      NewService(namespace) ==
        Ok(Object(g.fields["metadata" := Object(g.fields["metadata"].fields["namespace" := Str(namespace)])]))
  {
    var g := CustomerGridService();
    var rule := SetTo([Key("metadata"), Key("namespace")], Str(namespace));
    TransformOne(g, rule);
    var md := g.fields["metadata"];
    assert rule.path[1..] == [Key("namespace")] && rule.path[1..][1..] == [];
    assert Child(g.fields, "metadata") == md;
    assert Update(md, rule.path[1..], rule.with) == Ok(Object(md.fields["namespace" := Str(namespace)]));
  }

  /** What the Service promises: its type, name, namespace, idle timeout, the pods it
      selects (the customer labels with the component `Infrastructure`) and its two ports. */
  lemma NewServiceContents(namespace: string)
    ensures var r := NewService(namespace);
      r.Ok? &&
      Get(r.value, [Key("kind")]) == Some(Str("Service")) &&
      Get(r.value, [Key("metadata"), Key("namespace")]) == Some(Str(namespace)) &&
      Get(r.value, [Key("metadata"), Key("name")]) == Some(Str(CustomerGridName)) &&
      Get(r.value, [Key("metadata"), Key("labels")]) == Some(Object(CustomerLabels)) &&
      Get(r.value, [Key("metadata"), Key("annotations"), Key(IdleTimeoutAnnotation)]) == Some(Str("3600")) &&
      Get(r.value, [Key("spec"), Key("type")]) == Some(Str("LoadBalancer")) &&
      Get(r.value, [Key("spec"), Key("selector")]) == Some(Object(CustomerLabels["component" := Str("Infrastructure")])) &&
      Get(r.value, [Key("spec"), Key("ports")]) == Some(List([ServicePort("introducer", 10000), ServicePort("storage", 10001)]))
  {
    NewServiceMetadata(namespace);
    NewServiceSpec(namespace);
  }

  lemma NewServiceMetadata(namespace: string)
    ensures var r := NewService(namespace);
      r.Ok? &&
      Get(r.value, [Key("metadata"), Key("namespace")]) == Some(Str(namespace)) &&
      Get(r.value, [Key("metadata"), Key("name")]) == Some(Str(CustomerGridName)) &&
      Get(r.value, [Key("metadata"), Key("labels")]) == Some(Object(CustomerLabels)) &&
      Get(r.value, [Key("metadata"), Key("annotations"), Key(IdleTimeoutAnnotation)]) == Some(Str("3600"))
  {
    NewServiceShape(namespace);
    var g := CustomerGridService();
    var md := g.fields["metadata"];
    var md2 := Object(md.fields["namespace" := Str(namespace)]);
    var d := Object(g.fields["metadata" := md2]);
    GetKey(d, "metadata", [Key("namespace")]);
    GetKey(md2, "namespace", []);
    GetKey(d, "metadata", [Key("name")]);
    GetKey(md2, "name", []);
    GetKey(d, "metadata", [Key("labels")]);
    GetKey(md2, "labels", []);
    GetKey(d, "metadata", [Key("annotations"), Key(IdleTimeoutAnnotation)]);
    GetKey(md2, "annotations", [Key(IdleTimeoutAnnotation)]);
    GetKey(md2.fields["annotations"], IdleTimeoutAnnotation, []);
  }

  lemma NewServiceSpec(namespace: string)
    ensures var r := NewService(namespace);
      r.Ok? &&
      Get(r.value, [Key("kind")]) == Some(Str("Service")) &&
      Get(r.value, [Key("spec"), Key("type")]) == Some(Str("LoadBalancer")) &&
      Get(r.value, [Key("spec"), Key("selector")]) == Some(Object(CustomerLabels["component" := Str("Infrastructure")])) &&
      Get(r.value, [Key("spec"), Key("ports")]) == Some(List([ServicePort("introducer", 10000), ServicePort("storage", 10001)]))
  {
    NewServiceShape(namespace);
    var g := CustomerGridService();
    var md := g.fields["metadata"];
    var md2 := Object(md.fields["namespace" := Str(namespace)]);
    var d := Object(g.fields["metadata" := md2]);
    var spec := g.fields["spec"];
    assert d.fields["spec"] == spec && d.fields["kind"] == Str("Service");
    GetKey(d, "kind", []);
    GetKey(d, "spec", [Key("type")]);
    GetKey(spec, "type", []);
    GetKey(d, "spec", [Key("selector")]);
    GetKey(spec, "selector", []);
    GetKey(d, "spec", [Key("ports")]);
    GetKey(spec, "ports", []);
  }
}
