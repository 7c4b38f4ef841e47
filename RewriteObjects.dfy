/** The Manifest Rewriter: rewrites the image tags of the project's own images and,
    on request, swaps persistent volumes for empty directories, in the Deployments of a
    list of Kubernetes documents. Every other document is passed through unchanged. */
module RewriteObjects {

  import opened Wrappers
  import opened Strings
  import opened JsonTree

  /** The owner whose images are rewritten. */
  const Owner := "leastauthority"

  // ---------------------------------------------------------------------------
  // Combinators.

  /** `if_(predicate, thunk)`: the thunk's outcome where the predicate holds, the value itself
      where it does not. A failing predicate fails the whole. */
  function If(p: Json -> Result<bool>, f: Json -> Result<Json>): Json -> Result<Json>
  {
    (v: Json) => var c := p(v); if c.Err? then Err(c.error) else if c.value then f(v) else Ok(v)
  }

  /** `and_(*predicates)`: the predicates one after the other, stopping at the first that
      fails or answers false. */
  function And(ps: seq<Json -> Result<bool>>): Json -> Result<bool>
  {
    (v: Json) => AllHold(ps, v)
  }

  function AllHold(ps: seq<Json -> Result<bool>>, v: Json): Result<bool>
    decreases |ps|
  {
    if ps == [] then Ok(true)
    else
      var h := ps[0](v);
      if h.Err? || !h.value then h else AllHold(ps[1..], v)
  }

  // ---------------------------------------------------------------------------
  // Image references.

  /** The owner of an image reference `owner/name` or `registry/owner/name`; any other
      number of `/`-separated parts is unparseable. */
  function ImageOwner(image: string): Option<string>
  {
    var parts := Split(image, '/');
    if |parts| == 2 then Some(parts[0])
    else if |parts| == 3 then Some(parts[1])
    else None
  }

  /** `owned_by(whom)`: whether the image reference belongs to `whom`. Only text has an owner. */
  function OwnedBy(whom: string): Json -> Result<bool>
  {
    (v: Json) =>
      if !v.Str? then Err(TypeMismatch)
      else match ImageOwner(v.s)
        case None => Err(ImageParseError)
        case Some(owner) => Ok(owner == whom)
  }

  /** `has_tag()`: whether `":"` is in the value, read as Python's `in` reads it on text (a
      substring), on a mapping (a key) and on a list (an item). */
  function HasTag(): Json -> Result<bool>
  {
    (v: Json) =>
      match v
      case Str(s) => Ok(Contains(s, ':'))
      case Object(m) => Ok(":" in m)
      case List(xs) => Ok(Str(":") in xs)
      case _ => Err(TypeMismatch)
  }

  /** `specified_tag`: the reference with everything after its last `:` replaced by `rev`,
      or with `:rev` appended when it has no `:`. */
  function SpecifiedTag(image: string, rev: string): string
  {
    BeforeLast(image, ':') + ":" + rev
  }

  function Retag(rev: string): Json -> Result<Json>
  {
    (v: Json) => if v.Str? then Ok(Str(SpecifiedTag(v.s, rev))) else Err(TypeMismatch)
  }

  /** What an image field goes through: retagged when owned and already tagged. */
  function ImageRewrite(rev: string): Json -> Result<Json>
  {
    If(And([OwnedBy(Owner), HasTag()]), Retag(rev))
  }

  /** `maybe_change_image`: an environment entry whose name ends with `_IMAGE` and whose
      value is an owned image gets that value retagged (whether or not it has a tag). An
      entry that is not a mapping, or whose name is not text, is a `TypeMismatch`; a missing
      `name`, or a missing `value` once the name matches, is a `MissingKey`. */
  function MaybeChangeImage(rev: string): Json -> Result<Json>
  {
    (env: Json) =>
      if !env.Object? then Err(TypeMismatch)
      else if "name" !in env.fields then Err(MissingKey)
      else if !env.fields["name"].Str? then Err(TypeMismatch)
      else if !EndsWith(env.fields["name"].s, "_IMAGE") then Ok(env)
      else if "value" !in env.fields then Err(MissingKey)
      else
        var image := env.fields["value"];
        var owned := OwnedBy(Owner)(image);
        if owned.Err? then Err(owned.error)
        else if owned.value then Ok(Object(env.fields["value" := Str(SpecifiedTag(image.s, rev))]))
        else Ok(env)
  }

  // ---------------------------------------------------------------------------
  // Documents.

  predicate IsDeployment(d: Json)
  {
    d.Object? && "kind" in d.fields && d.fields["kind"] == Str("Deployment")
  }

  /** `deployments(docs)`: picks the indices of `docs` holding a Deployment. The list is the
      one given here, not the one being rewritten. A document that is not a mapping has no
      `get` (a `TypeMismatch`); an index outside the list is a `PathError`. */
  function Deployments(docs: seq<Json>): int -> Result<bool>
  {
    (i: int) =>
      if !(0 <= i < |docs|) then Err(PathError)
      else if !docs[i].Object? then Err(TypeMismatch)
      else Ok(IsDeployment(docs[i]))
  }

  /** The path from a Deployment to its containers, and the one to its volumes. */
  const Containers: seq<Seg> := [Key("spec"), Key("template"), Key("spec"), Key("containers")]

  const Volumes: seq<Seg> := [Key("spec"), Key("template"), Key("spec"), Key("volumes")]

  /** The two rules of `rewrite_tags` as they act on one container. */
  function ContainerRules(rev: string): seq<Rule>
  {
    [Rule([Key("image")], Apply(ImageRewrite(rev))), Rule([Key("env"), Any], Apply(MaybeChangeImage(rev)))]
  }

  /** The two rules of `rewrite_tags` as they act on one Deployment. */
  function DocumentRules(rev: string): seq<Rule>
  {
    [Rule(Containers + [Any, Key("image")], Apply(ImageRewrite(rev))),
     Rule(Containers + [Any, Key("env"), Any], Apply(MaybeChangeImage(rev)))]
  }

  /** The batch `rewrite_tags` applies to the list of documents. */
  function TagRules(docs: seq<Json>, rev: string): seq<Rule>
  {
    [Rule([Where(Deployments(docs))] + DocumentRules(rev)[0].path, DocumentRules(rev)[0].with),
     Rule([Where(Deployments(docs))] + DocumentRules(rev)[1].path, DocumentRules(rev)[1].with)]
  }

  /** What `rewrite_tags` does to one Deployment. */
  function RewriteDocument(d: Json, rev: string): Result<Json>
  {
    Transform(d, DocumentRules(rev))
  }

  /** What `rewrite_tags` does to one container. */
  function RewriteContainer(c: Json, rev: string): Result<Json>
  {
    Transform(c, ContainerRules(rev))
  }

  /** `rewrite_tags`: every container image, then every environment entry, of every
      Deployment. It fails when a document is not a mapping or a Deployment's rewrite
      fails; otherwise each Deployment is rewritten on its own and every other document
      is kept as it is, in the same place. */
  function RewriteTags(docs: seq<Json>, rev: string): (r: Result<seq<Json>>)
    ensures r.Ok? <==>
      (forall i | 0 <= i < |docs| :: docs[i].Object?) &&
      (forall i | 0 <= i < |docs| :: IsDeployment(docs[i]) ==> RewriteDocument(docs[i], rev).Ok?)
    ensures r.Ok? ==> (|r.value| == |docs| &&
      forall i | 0 <= i < |docs| ::
        r.value[i] == if IsDeployment(docs[i]) then RewriteDocument(docs[i], rev).value else docs[i])
  {
    var rules := DocumentRules(rev);
    WhereTwo(docs, Deployments(docs), rules[0].path, rules[0].with, rules[1].path, rules[1].with);
    var t := Transform(List(docs), TagRules(docs, rev));
    if t.Err? then Err(t.error) else Ok(t.value.items)
  }

  /** `persistent_volume_claim`: Python's `"persistentVolumeClaim" in volume`. */
  function PersistentVolumeClaim(): Json -> Result<bool>
  {
    (v: Json) =>
      match v
      case Object(m) => Ok("persistentVolumeClaim" in m)
      case Str(s) => Ok(ContainsText(s, "persistentVolumeClaim"))
      case List(xs) => Ok(Str("persistentVolumeClaim") in xs)
      case _ => Err(TypeMismatch)
  }

  /** `to_empty_dir`: a volume of the same name backed by an empty directory. */
  function ToEmptyDir(): Json -> Result<Json>
  {
    (v: Json) =>
      if !v.Object? then Err(TypeMismatch)
      else if "name" !in v.fields then Err(MissingKey)
      else Ok(EmptyDirVolume(v.fields["name"]))
  }

  function EmptyDirVolume(name: Json): Json
  {
    Object(map["name" := name, "emptyDir" := Object(map[])])
  }

  function VolumeRewrite(): Json -> Result<Json>
  {
    If(PersistentVolumeClaim(), ToEmptyDir())
  }

  /** What `stub_all_volumes` does to one Deployment. */
  function StubDocument(d: Json): Result<Json>
  {
    Update(d, Volumes + [Any], Apply(VolumeRewrite()))
  }

  /** `stub_all_volumes`: every volume of every Deployment. It fails when a document is not
      a mapping or a Deployment's stubbing fails; otherwise each Deployment is stubbed on
      its own and every other document is kept as it is, in the same place. */
  function StubAllVolumes(docs: seq<Json>): (r: Result<seq<Json>>)
    ensures r.Ok? <==>
      (forall i | 0 <= i < |docs| :: docs[i].Object?) &&
      (forall i | 0 <= i < |docs| :: IsDeployment(docs[i]) ==> StubDocument(docs[i]).Ok?)
    ensures r.Ok? ==> (|r.value| == |docs| &&
      forall i | 0 <= i < |docs| ::
        r.value[i] == if IsDeployment(docs[i]) then StubDocument(docs[i]).value else docs[i])
  {
    var rule := Rule([Where(Deployments(docs))] + Volumes + [Any], Apply(VolumeRewrite()));
    TransformOne(List(docs), rule);
    WhereSpec(docs, Deployments(docs), Volumes + [Any], Apply(VolumeRewrite()));
    assert [Where(Deployments(docs))] + Volumes + [Any] == [Where(Deployments(docs))] + (Volumes + [Any]);
    var t := Transform(List(docs), [rule]);
    if t.Err? then Err(t.error) else Ok(t.value.items)
  }

  // ---------------------------------------------------------------------------
  // The command line.

  /** The options `main` acts on. */
  datatype Options = Options(gitTag: Option<string>, tag: Option<string>, noVolumes: bool)

  /** The pipeline `main` runs on the parsed documents. `revParse` stands for the short
      revision `git rev-parse` prints for a name, with surrounding whitespace removed. */
  function Run(docs: seq<Json>, o: Options, revParse: string -> string): Result<seq<Json>>
  {
    var tagged :=
      if o.gitTag.Some? then RewriteTags(docs, revParse(o.gitTag.value))
      else if o.tag.Some? then RewriteTags(docs, o.tag.value)
      else Ok(docs);
    if tagged.Err? || !o.noVolumes then tagged else StubAllVolumes(tagged.value)
  }

  // ---------------------------------------------------------------------------
  // Laws of the combinators.

  /** `and_` consults its predicates in order: the later ones only once every earlier one
      has answered true. */
  lemma {:induction false} AllHoldAppend(ps: seq<Json -> Result<bool>>, qs: seq<Json -> Result<bool>>, v: Json)
    ensures AllHold(ps + qs, v) == (var h := AllHold(ps, v); if h == Ok(true) then AllHold(qs, v) else h)
    decreases |ps|
  {
    if ps == [] {
      assert ps + qs == qs;
    } else {
      assert (ps + qs)[0] == ps[0] && (ps + qs)[1..] == ps[1..] + qs;
      AllHoldAppend(ps[1..], qs, v);
    }
  }

  /** `and_` holds exactly when every predicate holds; otherwise its answer is that of the
      first predicate that fails or answers false, every earlier one having held. */
  lemma {:induction false} AllHoldSpec(ps: seq<Json -> Result<bool>>, v: Json)
    ensures AllHold(ps, v) == Ok(true) <==> forall i | 0 <= i < |ps| :: ps[i](v) == Ok(true)
    ensures AllHold(ps, v) != Ok(true) ==>
      exists k | 0 <= k < |ps| :: AllHold(ps, v) == ps[k](v) && forall i | 0 <= i < k :: ps[i](v) == Ok(true)
    decreases |ps|
  {
    if ps != [] {
      AllHoldSpec(ps[1..], v);
      assert forall i | 1 <= i < |ps| :: ps[1..][i - 1] == ps[i];
      if ps[0](v) == Ok(true) && AllHold(ps, v) != Ok(true) {
        var k :| 0 <= k < |ps[1..]| && AllHold(ps[1..], v) == ps[1..][k](v) &&
          forall i | 0 <= i < k :: ps[1..][i](v) == Ok(true);
        assert AllHold(ps, v) == ps[k + 1](v);
        forall i | 0 <= i < k + 1 ensures ps[i](v) == Ok(true) {
          if i > 0 { assert ps[i] == ps[1..][i - 1]; }
        }
      }
    }
  }

  // ---------------------------------------------------------------------------
  // Laws of image references.

  /** `owner/name` belongs to `owner`. */
  lemma OwnedByShort(whom: string, owner: string, name: string)
    requires !Contains(owner, '/') && !Contains(name, '/')
    ensures OwnedBy(whom)(Str(owner + "/" + name)) == Ok(owner == whom)
  {
    SplitFirst(owner, '/', name);
    SplitNone(name, '/');
    assert owner + "/" + name == owner + ['/'] + name;
  }

  /** `registry/owner/name` belongs to `owner`. */
  lemma OwnedByLong(whom: string, registry: string, owner: string, name: string)
    requires !Contains(registry, '/') && !Contains(owner, '/') && !Contains(name, '/')
    ensures OwnedBy(whom)(Str(registry + "/" + owner + "/" + name)) == Ok(owner == whom)
  {
    SplitFirst(registry, '/', owner + "/" + name);
    SplitFirst(owner, '/', name);
    SplitNone(name, '/');
    assert registry + "/" + owner + "/" + name == registry + ['/'] + (owner + ['/'] + name);
  }

  /** Only text has an owner, and only text with one or two `/` parses. */
  lemma OwnedByFails(whom: string, v: Json)
    ensures OwnedBy(whom)(v) == Err(TypeMismatch) <==> !v.Str?
    ensures OwnedBy(whom)(v) == Err(ImageParseError) <==>
      v.Str? && Count(v.s, '/') != 1 && Count(v.s, '/') != 2
  {
    if v.Str? {
      SplitCount(v.s, '/');
    }
  }

  /** A reference without a tag gets `:rev` appended. */
  lemma SpecifiedTagUntagged(image: string, rev: string)
    requires !Contains(image, ':')
    ensures SpecifiedTag(image, rev) == image + ":" + rev
  {
  }

  /** A tag is replaced as a whole: `base:tag` becomes `base:rev`. */
  lemma SpecifiedTagReplaces(base: string, tag: string, rev: string)
    requires !Contains(tag, ':')
    ensures SpecifiedTag(base + ":" + tag, rev) == base + ":" + rev
  {
    assert base + ":" + tag == base + [':'] + tag;
    BeforeLastAppend(base, ':', tag);
  }

  /** Retagging twice with the same revision is retagging once. */
  lemma SpecifiedTagIdempotent(image: string, rev: string)
    requires !Contains(rev, ':')
    ensures SpecifiedTag(SpecifiedTag(image, rev), rev) == SpecifiedTag(image, rev)
  {
    SpecifiedTagReplaces(BeforeLast(image, ':'), rev, rev);
  }

  /** An image field that is text: an unparseable reference fails whether or not it is
      tagged, since ownership is asked first; an owned, tagged one is retagged; every other
      one is kept. */
  lemma ImageRewriteText(image: string, rev: string)
    ensures ImageRewrite(rev)(Str(image)) ==
      match ImageOwner(image)
      case None => Err(ImageParseError)
      case Some(owner) =>
        Ok(Str(if owner == Owner && Contains(image, ':') then SpecifiedTag(image, rev) else image))
  {
    var v := Str(image);
    var ps := [OwnedBy(Owner), HasTag()];
    assert ps[1..] == [HasTag()];
    assert [HasTag()][1..] == [];
    assert And(ps)(v) == AllHold(ps, v);
    assert HasTag()(v) == Ok(Contains(image, ':'));
    match ImageOwner(image)
    case None =>
      assert OwnedBy(Owner)(v) == Err(ImageParseError);
    case Some(owner) =>
      assert OwnedBy(Owner)(v) == Ok(owner == Owner);
      if owner == Owner {
        assert AllHold(ps, v) == AllHold([HasTag()], v) == Ok(Contains(image, ':'));
      }
  }

  /** An image field that is not text fails, a missing one included. */
  lemma ImageRewriteNotText(v: Json, rev: string)
    requires !v.Str?
    ensures ImageRewrite(rev)(v) == Err(TypeMismatch)
  {
  }

  /** `maybe_change_image` changes at most the `value` of an entry. */
  lemma MaybeChangeImageOnlyValue(env: Json, rev: string)
    requires MaybeChangeImage(rev)(env).Ok?
    ensures var r := MaybeChangeImage(rev)(env).value;
      env.Object? && r.Object? && r.fields.Keys == env.fields.Keys &&
      forall k | k in env.fields && k != "value" :: r.fields[k] == env.fields[k]
  {
  }

  /** An entry named `..._IMAGE` holding an owned reference is retagged; unlike an image
      field, an untagged reference is not spared and gets `:rev` appended. */
  lemma MaybeChangeImageRetags(m: map<string, Json>, rev: string, name: string, image: string)
    requires "name" in m && m["name"] == Str(name) && EndsWith(name, "_IMAGE")
    requires "value" in m && m["value"] == Str(image) && ImageOwner(image) == Some(Owner)
    ensures MaybeChangeImage(rev)(Object(m)) == Ok(Object(m["value" := Str(SpecifiedTag(image, rev))]))
    ensures !Contains(image, ':') ==>
      MaybeChangeImage(rev)(Object(m)) == Ok(Object(m["value" := Str(image + ":" + rev)]))
  {
    assert OwnedBy(Owner)(Str(image)) == Ok(true);
  }

  /** Every other entry that does not fail is kept as it is. */
  lemma MaybeChangeImageKeeps(m: map<string, Json>, rev: string, name: string)
    requires "name" in m && m["name"] == Str(name)
    requires EndsWith(name, "_IMAGE") ==>
      "value" in m && m["value"].Str? && ImageOwner(m["value"].s).Some? && ImageOwner(m["value"].s) != Some(Owner)
    ensures MaybeChangeImage(rev)(Object(m)) == Ok(Object(m))
  {
    if EndsWith(name, "_IMAGE") {
      assert OwnedBy(Owner)(m["value"]) == Ok(false);
    }
  }

  /** The entries `maybe_change_image` fails on: not a mapping, no text `name`, or an
      `..._IMAGE` name without a text `value` that parses as a reference. */
  lemma MaybeChangeImageFails(env: Json, rev: string)
    ensures MaybeChangeImage(rev)(env).Err? <==>
      !env.Object? || "name" !in env.fields || !env.fields["name"].Str? ||
      (EndsWith(env.fields["name"].s, "_IMAGE") &&
       ("value" !in env.fields || !env.fields["value"].Str? || ImageOwner(env.fields["value"].s).None?))
  {
    if env.Object? && "value" in env.fields {
      var image := env.fields["value"];
      assert OwnedBy(Owner)(image).Err? <==> !image.Str? || ImageOwner(image.s).None?;
    }
  }

  // ---------------------------------------------------------------------------
  // Laws of the document rewrites.

  /** A Deployment whose containers are a list: the rewrite replaces that list by the
      containers rewritten one by one, and changes nothing else. */
  lemma RewriteDeployment(d: Json, rev: string, cs: seq<Json>)
    requires Get(d, Containers) == Some(List(cs))
    ensures RewriteDocument(d, rev).Ok? <==> forall i | 0 <= i < |cs| :: RewriteContainer(cs[i], rev).Ok?
    ensures var t := RewriteDocument(d, rev);
      t.Ok? ==> (var ys := Get(t.value, Containers);
        ys.Some? && ys.value.List? && |ys.value.items| == |cs| &&
        (forall i | 0 <= i < |cs| :: ys.value.items[i] == RewriteContainer(cs[i], rev).value) &&
        t == Update(d, Containers, Value(ys.value)))
  {
    GetReaches(d, Containers);
    var rules := ContainerRules(rev);
    var inner := [Rule([Any] + rules[0].path, rules[0].with), Rule([Any] + rules[1].path, rules[1].with)];
    var under := Under(Containers, inner);
    assert under[0].path == Containers + [Any, Key("image")];
    assert under[1].path == Containers + [Any, Key("env"), Any];
    assert DocumentRules(rev) == [under[0], under[1]] == under;
    TransformBelow(d, Containers, inner);
    AnyTwo(cs, rules[0].path, rules[0].with, rules[1].path, rules[1].with);
    var t := Transform(List(cs), inner);
    if t.Ok? {
      SetGet(d, Containers, t.value);
    }
  }

  /** A container with a list of environment entries: its image goes through the image
      rewrite and each entry through `maybe_change_image`; nothing else changes. */
  lemma RewriteContainerSpec(m: map<string, Json>, rev: string, es: seq<Json>)
    requires "env" in m && m["env"] == List(es)
    ensures var t := RewriteContainer(Object(m), rev);
      t.Ok? <==> ImageRewrite(rev)(Child(m, "image")).Ok? &&
                 forall j | 0 <= j < |es| :: MaybeChangeImage(rev)(es[j]).Ok?
    ensures var t := RewriteContainer(Object(m), rev);
      t.Ok? ==> (t.value.Object? && "env" in t.value.fields &&
        t.value.fields == m["image" := ImageRewrite(rev)(Child(m, "image")).value]["env" := t.value.fields["env"]] &&
        t.value.fields["env"].List? && |t.value.fields["env"].items| == |es| &&
        forall j | 0 <= j < |es| :: t.value.fields["env"].items[j] == MaybeChangeImage(rev)(es[j]).value)
  {
    var rules := ContainerRules(rev);
    TransformTwo(Object(m), rules[0], rules[1]);
    var image := ImageRewrite(rev)(Child(m, "image"));
    assert Update(Object(m), rules[0].path, rules[0].with) ==
      if image.Err? then image else Ok(Object(m["image" := image.value]));
    if image.Ok? {
      var m1 := m["image" := image.value];
      assert Child(m1, "env") == List(es);
      assert rules[1].path[1..] == [Any] + [];
      AnySpec(es, [], rules[1].with);
    }
  }

  /** A container without environment entries gets an empty mapping of them. */
  lemma RewriteContainerNoEnv(m: map<string, Json>, rev: string)
    requires "env" !in m && ImageRewrite(rev)(Child(m, "image")).Ok?
    ensures RewriteContainer(Object(m), rev) ==
      Ok(Object(m["image" := ImageRewrite(rev)(Child(m, "image")).value]["env" := Object(map[])]))
  {
    var rules := ContainerRules(rev);
    TransformTwo(Object(m), rules[0], rules[1]);
    var m1 := m["image" := ImageRewrite(rev)(Child(m, "image")).value];
    assert Child(m1, "env") == Empty;
    assert rules[1].path[1..] == [Any] + [];
    AnyOnEmpty([], rules[1].with);
  }

  /** A container without an image fails. */
  lemma RewriteContainerNoImage(m: map<string, Json>, rev: string)
    requires "image" !in m
    ensures RewriteContainer(Object(m), rev) == Err(TypeMismatch)
  {
    var rules := ContainerRules(rev);
    TransformTwo(Object(m), rules[0], rules[1]);
  }

  /** A volume with a persistent claim becomes an empty directory of the same name; a
      volume without one is kept. */
  lemma VolumeRewriteSpec(m: map<string, Json>)
    ensures VolumeRewrite()(Object(m)) ==
      if "persistentVolumeClaim" !in m then Ok(Object(m))
      else if "name" in m then Ok(EmptyDirVolume(m["name"]))
      else Err(MissingKey)
  {
  }

  /** A Deployment whose volumes are a list: stubbing replaces that list by the volumes
      rewritten one by one, in the same order, and changes nothing else. */
  lemma StubDeployment(d: Json, vs: seq<Json>)
    requires Get(d, Volumes) == Some(List(vs))
    ensures StubDocument(d).Ok? <==> forall i | 0 <= i < |vs| :: VolumeRewrite()(vs[i]).Ok?
    ensures var t := StubDocument(d);
      t.Ok? ==> (var ws := Get(t.value, Volumes);
        ws.Some? && ws.value.List? && |ws.value.items| == |vs| &&
        (forall i | 0 <= i < |vs| :: ws.value.items[i] == VolumeRewrite()(vs[i]).value) &&
        t == Update(d, Volumes, Value(ws.value)))
  {
    GetReaches(d, Volumes);
    UpdateUnder(d, Volumes, Volumes + [Any], Apply(VolumeRewrite()));
    assert (Volumes + [Any])[|Volumes|..] == [Any] + [];
    AnySpec(vs, [], Apply(VolumeRewrite()));
    var u := Update(List(vs), [Any], Apply(VolumeRewrite()));
    if u.Ok? {
      SetGet(d, Volumes, u.value);
    }
  }

  /** A Deployment without volumes gets an empty mapping of them. */
  lemma StubWithoutVolumes(d: Json)
    requires Reaches(d, Volumes) && Get(d, Volumes) == None
    ensures StubDocument(d) == Update(d, Volumes, Value(Object(map[])))
  {
    var w := Apply(VolumeRewrite());
    assert HasPrefix(Volumes + [Any], Volumes);
    UpdateUnder(d, Volumes, Volumes + [Any], w);
    assert (Volumes + [Any])[|Volumes|..] == [Any] + [];
    assert Base(d, Volumes) == Empty;
    AnyOnEmpty([], w);
  }

  // ---------------------------------------------------------------------------
  // Laws of the command line.

  /** Without options the documents come back as they are. */
  lemma RunNothing(docs: seq<Json>, revParse: string -> string)
    ensures Run(docs, Options(None, None, false), revParse) == Ok(docs)
  {
  }

  /** `--git-tag` wins over `--tag`: the tag used is the revision it names. */
  lemma RunGitTag(docs: seq<Json>, o: Options, revParse: string -> string)
    requires o.gitTag.Some?
    ensures Run(docs, o, revParse) == Run(docs, Options(None, Some(revParse(o.gitTag.value)), o.noVolumes), revParse)
  {
  }

  /** `--no-volumes` stubs the volumes of the documents the tag rewrite produced. */
  lemma RunStubsLast(docs: seq<Json>, o: Options, revParse: string -> string)
    requires o.noVolumes
    ensures Run(docs, o, revParse) ==
      (var t := Run(docs, o.(noVolumes := false), revParse); if t.Err? then t else StubAllVolumes(t.value))
  {
  }
}
