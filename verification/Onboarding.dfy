/** Onboarding a VNF template: creating the flavors and images its VDUs need, sharing equal ones, and taking everything
    back when a call to the cloud fails. */
module Onboarding {
  import opened Lists
  import opened Text

  datatype Spec = Spec(ram: nat, vcpus: nat, disk: nat)

  /** A VDU's image: one that exists already, one to be uploaded from a path, or none (an empty id or path). */
  datatype ImageSource = ById(id: nat) | FromPath(path: string) | NoImage

  datatype VduTemplate = VduTemplate(image: ImageSource, spec: Spec)

  datatype VduConfig = VduConfig(image: Option<nat>, flavor: nat)

  /** Ids by what was created for: a spec's flavor, a path's image. */
  type Created<K> = seq<(K, nat)>

  function Ids<K>(list: Created<K>): set<nat> {
    set i | 0 <= i < |list| :: list[i].1
  }

  lemma IdsSnoc<K>(list: Created<K>, k: K, id: nat)
    ensures Ids(list + [(k, id)]) == Ids(list) + {id}
  {
    var longer := list + [(k, id)];
    assert forall i :: 0 <= i < |list| ==> longer[i] == list[i];
    assert longer[|list|] == (k, id);
    forall x | x in Ids(list) ensures x in Ids(longer) {
      var i :| 0 <= i < |list| && list[i].1 == x;
      assert longer[i].1 == x;
    }
  }

  /** One entry per key, with ids of its own. */
  predicate OneEach<K(==)>(list: Created<K>) {
    && UniqueKeys(list)
    && forall i, j | 0 <= i < j < |list| :: list[i].1 != list[j].1
  }

  lemma {:induction false} GetAppend<K>(list: Created<K>, k: K, id: nat, key: K)
    ensures Get(list + [(k, id)], key) == if Get(list, key).Some? then Get(list, key) else if key == k then Some(id) else None
  {
    var longer := list + [(k, id)];
    if list == [] {
      assert longer[1..] == [];
    } else {
      assert longer[0] == list[0] && longer[1..] == list[1..] + [(k, id)];
      GetAppend(list[1..], k, id, key);
    }
  }

  lemma {:induction false} GetInIds<K>(list: Created<K>, key: K)
    requires Get(list, key).Some?
    ensures exists i :: 0 <= i < |list| && list[i] == (key, Get(list, key).value)
  {
    if list[0].0 == key {
      assert list[0] == (key, Get(list, key).value);
    } else {
      GetInIds(list[1..], key);
      var i :| 0 <= i < |list[1..]| && list[1..][i] == (key, Get(list[1..], key).value);
      assert list[i + 1] == (key, Get(list, key).value);
    }
  }

  datatype CallKind = NoCall | FlavorCreation | ImageCreation | ImagePoll | ImageCheck | Deletion

  /** Nova and Glance: each call is atomic, and the one whose number is `failAt` fails. */
  class Cloud {
    const failAt: nat
    /** The images given by id that exist and are active. */
    const usable: set<nat>
    /** How often an image must be asked for after its creation until it is active. */
    const polls: nat -> nat
    var calls: nat
    /** What kind of call has failed. */
    var failed: CallKind
    var nextId: nat
    var flavors: map<nat, Spec>
    var images: map<nat, string>

    predicate Valid() reads this {
      && (failed.NoCall? <==> calls <= failAt)
      && (forall id :: id in flavors ==> id < nextId)
      && (forall id :: id in images ==> id < nextId)
    }

    method Call(kind: CallKind) returns (ok: bool)
      requires Valid() && !kind.NoCall?
      modifies `calls, `failed
      ensures Valid() && calls == old(calls) + 1
      ensures ok <==> old(calls) != failAt
      ensures failed == if ok then old(failed) else kind
    {
      ok := calls != failAt;
      calls := calls + 1;
      if !ok { failed := kind; }
    }

    method CreateFlavor(spec: Spec) returns (id: Option<nat>)
      requires Valid() && failed.NoCall?
      modifies `calls, `failed, `nextId, `flavors
      ensures Valid() && (id.None? ==> failed.FlavorCreation? && flavors == old(flavors) && nextId == old(nextId))
      ensures id.Some? ==> failed.NoCall? && id.value == old(nextId) && nextId == old(nextId) + 1
                           && flavors == old(flavors)[id.value := spec]
    {
      var ok := Call(FlavorCreation);
      if !ok { return None; }
      id := Some(nextId);
      flavors := flavors[nextId := spec];
      nextId := nextId + 1;
    }

    method CreateImage(path: string) returns (id: Option<nat>)
      requires Valid() && failed.NoCall?
      modifies `calls, `failed, `nextId, `images
      ensures Valid() && (id.None? ==> failed.ImageCreation? && images == old(images) && nextId == old(nextId))
      ensures calls == old(calls) + 1
      ensures id.Some? ==> failed.NoCall? && id.value == old(nextId) && nextId == old(nextId) + 1
                           && images == old(images)[id.value := path]
    {
      var ok := Call(ImageCreation);
      if !ok { return None; }
      id := Some(nextId);
      images := images[nextId := path];
      nextId := nextId + 1;
    }

    method DeleteFlavor(id: nat) returns (ok: bool)
      requires Valid()
      modifies `calls, `failed, `flavors
      ensures Valid() && (!old(failed).NoCall? ==> ok && failed == old(failed))
      ensures flavors == if ok then old(flavors) - {id} else old(flavors)
      ensures if ok then failed == old(failed) else failed.Deletion?
    {
      ok := Call(Deletion);
      if ok { flavors := flavors - {id}; }
    }

    method DeleteImage(id: nat) returns (ok: bool)
      requires Valid()
      modifies `calls, `failed, `images
      ensures Valid() && (!old(failed).NoCall? ==> ok && failed == old(failed))
      ensures images == if ok then old(images) - {id} else old(images)
      ensures if ok then failed == old(failed) else failed.Deletion?
    {
      ok := Call(Deletion);
      if ok { images := images - {id}; }
    }
  }

  /** How the image of a VDU is found: there is one, or the exception came before, or after, its creation. */
  datatype ImageResult = Found(id: nat) | NotCreated | CreatedThenFailed(id: nat)

  method GetVduImage(cloud: Cloud, image: ImageSource) returns (r: ImageResult)
    requires cloud.Valid() && cloud.failed.NoCall? && !image.NoImage?
    modifies cloud`calls, cloud`failed, cloud`nextId, cloud`images
    ensures cloud.Valid() && (r.Found? ==> cloud.failed.NoCall?) && !cloud.failed.Deletion? && !cloud.failed.FlavorCreation?
    ensures r.CreatedThenFailed? <==> cloud.failed.ImagePoll?
    ensures image.ById? || r.NotCreated? ==> cloud.images == old(cloud.images) && cloud.nextId == old(cloud.nextId)
    ensures image.ById? ==> r == Found(image.id) || r == NotCreated
    ensures r.NotCreated? && cloud.failed.NoCall? ==> image.ById? && image.id !in cloud.usable
    ensures r.Found? && image.ById? ==> image.id in cloud.usable
    ensures image.FromPath? && !r.NotCreated? ==>
              r.id == old(cloud.nextId) && cloud.nextId == old(cloud.nextId) + 1
              && cloud.images == old(cloud.images)[r.id := image.path]
    ensures image.ById? || r.NotCreated? ==> cloud.calls == old(cloud.calls) + 1
    ensures image.FromPath? && r.Found? ==> cloud.calls == old(cloud.calls) + 1 + cloud.polls(r.id)
    ensures r.CreatedThenFailed? ==> cloud.calls <= old(cloud.calls) + 1 + cloud.polls(r.id)
  {
    match image {
      case ById(id) =>
        var ok := cloud.Call(ImageCheck);
        r := if ok && id in cloud.usable then Found(id) else NotCreated;
      case FromPath(path) =>
        var id := cloud.CreateImage(path);
        if id.None? { return NotCreated; }
        var left := cloud.polls(id.value);
        while left > 0
          invariant cloud.Valid() && cloud.failed.NoCall? && cloud.images == old(cloud.images)[id.value := path]
          invariant cloud.nextId == old(cloud.nextId) + 1
          invariant cloud.calls + left == old(cloud.calls) + 1 + cloud.polls(id.value)
        {
          var ok := cloud.Call(ImagePoll);
          if !ok { return CreatedThenFailed(id.value); }
          left := left - 1;
        }
        r := Found(id.value);
    }
  }

  /** What was created so far, on top of what there was before. */
  ghost predicate Grown<K>(before: map<nat, K>, now: map<nat, K>, list: Created<K>) {
    && now.Keys == before.Keys + Ids(list) && before.Keys !! Ids(list)
    && (forall id :: id in before ==> now[id] == before[id])
    && (forall i :: 0 <= i < |list| ==> now[list[i].1] == list[i].0)
  }

  lemma GrownMore<K>(before: map<nat, K>, now: map<nat, K>, list: Created<K>, k: K, id: nat)
    requires Grown(before, now, list) && OneEach(list) && id !in now && Get(list, k).None?
    ensures Grown(before, now[id := k], list + [(k, id)]) && OneEach(list + [(k, id)])
    ensures Get(list + [(k, id)], k) == Some(id)
  {
    IdsSnoc(list, k, id);
    GetAppend(list, k, id, k);
    GetHas(list, k);
    assert forall i :: 0 <= i < |list| ==> list[i].0 != k;
    forall i | 0 <= i < |list| ensures list[i].1 != id {
      assert list[i].1 in Ids(list);
    }
  }

  lemma GrownBack<K>(before: map<nat, K>, now: map<nat, K>, list: Created<K>)
    requires Grown(before, now, list)
    ensures now - Ids(list) == before
  {
  }

  /** Deleting the first `k` leaves the entries not visited. */
  lemma GrownPart<K>(before: map<nat, K>, now: map<nat, K>, list: Created<K>, k: nat)
    requires Grown(before, now, list) && OneEach(list) && k <= |list|
    ensures Grown(before, now - Ids(list[..k]), list[k..])
  {
    var gone, left := list[..k], list[k..];
    assert forall i :: 0 <= i < |left| ==> left[i] == list[k + i];
    forall id ensures id in Ids(list) <==> id in Ids(gone) || id in Ids(left) {
      if id in Ids(list) {
        var i :| 0 <= i < |list| && list[i].1 == id;
        if i < k { assert gone[i].1 == id; } else { assert left[i - k].1 == id; }
      }
    }
    forall i, j | 0 <= i < |left| && 0 <= j < |gone| ensures left[i].1 != gone[j].1 {
      assert list[j].1 != list[k + i].1;
    }
    assert (now - Ids(gone)).Keys == before.Keys + Ids(left);
  }

  /** There is one image more than the list accounts for. */
  ghost predicate Leaked(before: map<nat, string>, now: map<nat, string>, list: Created<string>, path: string) {
    exists id: nat :: id in now && now[id] == path && id !in before && id !in Ids(list) && Grown(before, now - {id}, list)
  }

  lemma LeakedOne(before: map<nat, string>, now: map<nat, string>, list: Created<string>, id: nat, path: string)
    requires Grown(before, now, list) && id !in now
    ensures Leaked(before, now[id := path], list, path)
  {
    var more := now[id := path];
    assert more - {id} == now;
    assert id in more && more[id] == path && id !in before && id !in Ids(list) && Grown(before, more - {id}, list);
  }

  ghost predicate OneImageMore(before: map<nat, string>, now: map<nat, string>) {
    exists id: nat :: id in now && id !in before && now - {id} == before
  }

  lemma LeakedBack(before: map<nat, string>, now: map<nat, string>, list: Created<string>, path: string)
    requires Leaked(before, now, list, path)
    ensures OneImageMore(before, now - Ids(list))
  {
    var id :| id in now && now[id] == path && id !in before && id !in Ids(list) && Grown(before, now - {id}, list);
    var kept := now - Ids(list);
    assert kept - {id} == before;
    assert id in kept && id !in before && kept - {id} == before;
  }

  /** Deletes what a failed call has created, flavors first; a failing deletion ends it early, and what was not visited
      by then stays. */
  method TemplateCleanup(cloud: Cloud, flavorList: Created<Spec>, imageList: Created<string>)
    returns (ok: bool, flavorsGone: nat, imagesGone: nat)
    requires cloud.Valid()
    modifies cloud`calls, cloud`failed, cloud`flavors, cloud`images
    ensures cloud.Valid() && if ok then cloud.failed == old(cloud.failed) else cloud.failed.Deletion?
    ensures !old(cloud.failed).NoCall? ==> ok
    ensures flavorsGone <= |flavorList| && cloud.flavors == old(cloud.flavors) - Ids(flavorList[..flavorsGone])
    ensures imagesGone <= |imageList| && cloud.images == old(cloud.images) - Ids(imageList[..imagesGone])
    ensures ok <==> flavorsGone == |flavorList| && imagesGone == |imageList|
    ensures flavorsGone < |flavorList| ==> imagesGone == 0
  {
    flavorsGone, imagesGone := 0, 0;
    assert flavorList[..0] == [] && imageList[..0] == [];
    for i := 0 to |flavorList|
      invariant flavorsGone == i && cloud.Valid() && cloud.failed == old(cloud.failed)
      invariant cloud.flavors == old(cloud.flavors) - Ids(flavorList[..i]) && cloud.images == old(cloud.images)
    {
      var (spec, id) := flavorList[i];
      ok := cloud.DeleteFlavor(id);
      if !ok { return; }
      assert flavorList[..i + 1] == flavorList[..i] + [(spec, id)];
      IdsSnoc(flavorList[..i], spec, id);
      flavorsGone := i + 1;
    }
    for i := 0 to |imageList|
      invariant imagesGone == i && cloud.Valid() && cloud.failed == old(cloud.failed)
      invariant cloud.flavors == old(cloud.flavors) - Ids(flavorList[..flavorsGone])
      invariant cloud.images == old(cloud.images) - Ids(imageList[..i])
    {
      var (path, id) := imageList[i];
      ok := cloud.DeleteImage(id);
      if !ok { return; }
      assert imageList[..i + 1] == imageList[..i] + [(path, id)];
      IdsSnoc(imageList[..i], path, id);
      imagesGone := i + 1;
    }
    ok := true;
  }

  // ---------- The loop over the VDUs ----------

  /** One flavor per spec: an equal spec shares the flavor there is. */
  method FlavorFor(cloud: Cloud, flavorList: Created<Spec>, spec: Spec, ghost before: map<nat, Spec>)
    returns (list: Created<Spec>, id: Option<nat>)
    requires cloud.Valid() && cloud.failed.NoCall? && Grown(before, cloud.flavors, flavorList) && OneEach(flavorList)
    modifies cloud`calls, cloud`failed, cloud`nextId, cloud`flavors
    ensures cloud.Valid() && Grown(before, cloud.flavors, list) && OneEach(list)
    ensures id.None? ==> cloud.failed.FlavorCreation?
    ensures id.Some? ==> cloud.failed.NoCall? && Get(list, spec) == id
    ensures list == flavorList || (Get(flavorList, spec).None? && id.Some? && list == flavorList + [(spec, id.value)])
  {
    list, id := flavorList, Get(flavorList, spec);
    if id.None? {
      id := cloud.CreateFlavor(spec);
      if id.Some? {
        GrownMore(before, old(cloud.flavors), flavorList, spec, id.value);
        list := flavorList + [(spec, id.value)];
      }
    }
  }

  /** One image per path; a given image is looked at the first time it is named. `created` is an image that was made
      and then lost by a failing poll. */
  method ImageFor(cloud: Cloud, imageList: Created<string>, checked: set<nat>, image: ImageSource, ghost before: map<nat, string>)
    returns (list: Created<string>, seen: set<nat>, ok: bool, id: Option<nat>)
    requires cloud.Valid() && cloud.failed.NoCall? && Grown(before, cloud.images, imageList) && OneEach(imageList)
    modifies cloud`calls, cloud`failed, cloud`nextId, cloud`images
    ensures cloud.Valid() && OneEach(list) && !cloud.failed.Deletion?
    ensures !cloud.failed.ImagePoll? ==> Grown(before, cloud.images, list)
    ensures cloud.failed.ImagePoll? ==> image.FromPath? && Leaked(before, cloud.images, list, image.path)
    ensures ok ==> cloud.failed.NoCall?
    ensures !ok && cloud.failed.NoCall? ==> image.ById? && image.id !in cloud.usable
    ensures (image.ById? && image.id in checked) || (image.FromPath? && Get(imageList, image.path).Some?) || image.NoImage? ==>
              ok && cloud.calls == old(cloud.calls)
    ensures seen == if image.ById? then checked + {image.id} else checked
    ensures ok && checked <= cloud.usable ==> seen <= cloud.usable && (image.ById? ==> image.id in cloud.usable)
    ensures ok ==> match image
              case NoImage => id == None
              case ById(given) => id == Some(given)
              case FromPath(path) => id.Some? && Get(list, path) == id
    ensures list == imageList || (image.FromPath? && Get(imageList, image.path).None? && id.Some?
                                  && list == imageList + [(image.path, id.value)])
  {
    list, seen, ok, id := imageList, checked, true, None;
    match image {
      case NoImage =>
      case ById(given) =>
        id := Some(given);
        if given !in checked {
          var r := GetVduImage(cloud, image);
          ok, seen := r.Found?, checked + {given};
        }
      case FromPath(path) =>
        id := Get(imageList, path);
        if id.None? {
          var r := GetVduImage(cloud, image);
          ok := r.Found?;
          if r.CreatedThenFailed? {
            LeakedOne(before, old(cloud.images), list, r.id, path);
          }
          if ok {
            GrownMore(before, old(cloud.images), imageList, path, r.id);
            list, id := imageList + [(path, r.id)], Some(r.id);
          }
        }
    }
  }

  /** How onboarding ends: with a configuration; or with an exception, after which everything is undone, or one image
      is left over, or the clean-up itself failed and left some of what was created. */
  datatype Onboarded =
    | Config(vdus: seq<VduConfig>)
    | Undone
    | ImageLeft
    | CleanupFailed(flavorsLeft: Created<Spec>, imagesLeft: Created<string>)

  /** What was there before is there still, unchanged. */
  ghost predicate Kept<K>(before: map<nat, K>, now: map<nat, K>) {
    forall id :: id in before ==> id in now && now[id] == before[id]
  }

  /** What the configurations made so far say about sharing. */
  ghost predicate Assigned(vdus: seq<VduTemplate>, done: seq<VduConfig>, flavorList: Created<Spec>, imageList: Created<string>) {
    && |done| <= |vdus|
    && (forall i :: 0 <= i < |done| ==> Get(flavorList, vdus[i].spec) == Some(done[i].flavor))
    && (forall i :: 0 <= i < |done| ==> ImageIs(imageList, vdus[i].image, done[i].image))
    && (forall k :: Get(flavorList, k).Some? ==> exists i :: 0 <= i < |done| && vdus[i].spec == k)
  }

  predicate ImageIs(imageList: Created<string>, image: ImageSource, id: Option<nat>) {
    match image
    case NoImage => id == None
    case ById(given) => id == Some(given)
    case FromPath(path) => id.Some? && Get(imageList, path) == id
  }

  lemma AssignedMore(vdus: seq<VduTemplate>, done: seq<VduConfig>, flavors: Created<Spec>, images: Created<string>,
                     flavors': Created<Spec>, images': Created<string>, c: VduConfig)
    requires Assigned(vdus, done, flavors, images) && |done| < |vdus|
    requires Get(flavors', vdus[|done|].spec) == Some(c.flavor) && ImageIs(images', vdus[|done|].image, c.image)
    requires flavors' == flavors || flavors' == flavors + [(vdus[|done|].spec, c.flavor)]
    requires images' == images || (c.image.Some? && vdus[|done|].image.FromPath?
                                   && images' == images + [(vdus[|done|].image.path, c.image.value)])
    ensures Assigned(vdus, done + [c], flavors', images')
  {
    var more := done + [c];
    var v := vdus[|done|];
    forall k ensures Get(flavors', k) == if Get(flavors, k).Some? then Get(flavors, k) else Get(flavors', k) {
      GetAppend(flavors, v.spec, c.flavor, k);
    }
    forall i | 0 <= i < |more|
      ensures Get(flavors', vdus[i].spec) == Some(more[i].flavor) && ImageIs(images', vdus[i].image, more[i].image)
    {
      if i < |done| && vdus[i].image.FromPath? && images' != images {
        GetAppend(images, v.image.path, c.image.value, vdus[i].image.path);
      }
    }
    forall k | Get(flavors', k).Some? ensures exists i :: 0 <= i < |more| && vdus[i].spec == k {
      GetAppend(flavors, v.spec, c.flavor, k);
      if Get(flavors, k).Some? {
        var i :| 0 <= i < |done| && vdus[i].spec == k;
      } else {
        assert vdus[|done|].spec == k;
      }
    }
  }

  function Specs(vdus: seq<VduTemplate>): set<Spec> {
    set v | v in vdus :: v.spec
  }

  lemma {:induction false} IdsCount<K>(list: Created<K>)
    requires forall i, j :: 0 <= i < j < |list| ==> list[i].1 != list[j].1
    ensures |Ids(list)| == |list|
  {
    if list != [] {
      var init, last := list[..|list| - 1], list[|list| - 1];
      assert list == init + [(last.0, last.1)];
      IdsCount(init);
      IdsSnoc(init, last.0, last.1);
      forall i | 0 <= i < |init| ensures init[i].1 != last.1 {
        assert list[i].1 != list[|list| - 1].1;
      }
    }
  }

  lemma {:induction false} KeysCount<K>(list: Created<K>)
    requires UniqueKeys(list)
    ensures |set e | e in list :: e.0| == |list|
  {
    var keys := set e | e in list :: e.0;
    if list == [] {
      assert keys == {};
    } else {
      var init, last := list[..|list| - 1], list[|list| - 1];
      assert list == init + [last];
      KeysCount(init);
      var before := set e | e in init :: e.0;
      assert keys == before + {last.0};
      forall i | 0 <= i < |init| ensures init[i].0 != last.0 {
        assert list[i].0 != list[|list| - 1].0;
      }
    }
  }

  /** On success two VDUs share a flavor exactly when their specs are equal, images are shared by path, and there are as
      many new flavors as different specs. */
  lemma SharingFacts(vdus: seq<VduTemplate>, done: seq<VduConfig>, flavors: Created<Spec>, images: Created<string>)
    requires Assigned(vdus, done, flavors, images) && |done| == |vdus| && OneEach(flavors) && OneEach(images)
    ensures forall i, j :: 0 <= i < |vdus| && 0 <= j < |vdus| ==> (done[i].flavor == done[j].flavor <==> vdus[i].spec == vdus[j].spec)
    ensures forall i, j :: 0 <= i < |vdus| && 0 <= j < |vdus| && vdus[i].image.FromPath? && vdus[j].image.FromPath? ==>
              (done[i].image == done[j].image <==> vdus[i].image == vdus[j].image)
    ensures |Ids(flavors)| == |Specs(vdus)|
  {
    forall i, j | 0 <= i < |vdus| && 0 <= j < |vdus| && done[i].flavor == done[j].flavor ensures vdus[i].spec == vdus[j].spec {
      SameIdSameKey(flavors, vdus[i].spec, vdus[j].spec);
    }
    forall i, j | 0 <= i < |vdus| && 0 <= j < |vdus| && vdus[i].image.FromPath? && vdus[j].image.FromPath?
                  && done[i].image == done[j].image
      ensures vdus[i].image == vdus[j].image
    {
      SameIdSameKey(images, vdus[i].image.path, vdus[j].image.path);
    }
    var keys := set e | e in flavors :: e.0;
    forall k ensures k in keys <==> k in Specs(vdus) {
      GetHas(flavors, k);
      if k in keys {
        var i :| 0 <= i < |flavors| && flavors[i].0 == k;
        assert HasKey(flavors, k);
        var j :| 0 <= j < |done| && vdus[j].spec == k;
        assert vdus[j] in vdus;
      }
      if k in Specs(vdus) {
        var v :| v in vdus && v.spec == k;
        var j :| 0 <= j < |vdus| && vdus[j] == v;
        assert Get(flavors, k) == Some(done[j].flavor);
        var i :| 0 <= i < |flavors| && flavors[i].0 == k;
        assert flavors[i] in flavors;
      }
    }
    assert keys == Specs(vdus);
    KeysCount(flavors);
    IdsCount(flavors);
  }

  lemma SameIdSameKey<K>(list: Created<K>, a: K, b: K)
    requires OneEach(list) && Get(list, a).Some? && Get(list, a) == Get(list, b)
    ensures a == b
  {
    GetInIds(list, a);
    GetInIds(list, b);
    var i :| 0 <= i < |list| && list[i] == (a, Get(list, a).value);
    var j :| 0 <= j < |list| && list[j] == (b, Get(list, b).value);
    assert i == j;
  }

  /** Image and flavor of one VDU, the next of the template: the body of the loop up to its exception handler. */
  method Configure(cloud: Cloud, flavorList: Created<Spec>, imageList: Created<string>, checked: set<nat>, vdu: VduTemplate,
                   ghost flavors0: map<nat, Spec>, ghost images0: map<nat, string>, ghost vdus: seq<VduTemplate>,
                   ghost done: seq<VduConfig>)
    returns (flavorList': Created<Spec>, imageList': Created<string>, seen: set<nat>, config: Option<VduConfig>)
    requires cloud.Valid() && cloud.failed.NoCall? && |done| < |vdus| && vdu == vdus[|done|]
    requires Grown(flavors0, cloud.flavors, flavorList) && Grown(images0, cloud.images, imageList)
    requires OneEach(flavorList) && OneEach(imageList) && Assigned(vdus, done, flavorList, imageList) && checked <= cloud.usable
    modifies cloud`calls, cloud`failed, cloud`nextId, cloud`flavors, cloud`images
    ensures cloud.Valid() && !cloud.failed.Deletion? && OneEach(flavorList') && OneEach(imageList')
    ensures Grown(flavors0, cloud.flavors, flavorList')
    ensures if cloud.failed.ImagePoll? then exists path :: Leaked(images0, cloud.images, imageList', path)
            else Grown(images0, cloud.images, imageList')
    ensures config.Some? ==>
              && cloud.failed.NoCall? && Assigned(vdus, done + [config.value], flavorList', imageList')
              && seen <= cloud.usable && (vdu.image.ById? ==> vdu.image.id in cloud.usable)
    ensures config.None? && cloud.failed.NoCall? ==> vdu.image.ById? && vdu.image.id !in cloud.usable
  {
    hide Assigned, Get, Grown, Ids, Leaked, OneEach;
    flavorList', config := flavorList, None;
    var ok, image, flavor;
    imageList', seen, ok, image := ImageFor(cloud, imageList, checked, vdu.image, images0);
    if ok {
      flavorList', flavor := FlavorFor(cloud, flavorList, vdu.spec, flavors0);
      if flavor.Some? {
        config := Some(VduConfig(image, flavor.value));
        assert ImageIs(imageList', vdu.image, image);
        AssignedMore(vdus, done, flavorList, imageList, flavorList', imageList', config.value);
      }
    }
  }

  /** Onboarding is transactional but for two cases: when it fails, everything created is deleted again, except that an
      image whose creation succeeded and whose polling failed is left over, and that, when a deletion is what fails (after
      a given image turned out unusable), what the clean-up had not visited is left. What was there before stays. */
  method GetVnfDetails(cloud: Cloud, vdus: seq<VduTemplate>) returns (r: Onboarded)
    requires cloud.Valid() && cloud.failed.NoCall? && cloud.usable <= cloud.images.Keys
    modifies cloud`calls, cloud`failed, cloud`nextId, cloud`flavors, cloud`images
    ensures Kept(old(cloud.flavors), cloud.flavors) && Kept(old(cloud.images), cloud.images)
    ensures r.Config? ==>
              && |r.vdus| == |vdus|
              && (forall i, j :: 0 <= i < |vdus| && 0 <= j < |vdus| ==>
                    (r.vdus[i].flavor == r.vdus[j].flavor <==> vdus[i].spec == vdus[j].spec))
              && (forall i, j :: 0 <= i < |vdus| && 0 <= j < |vdus| && vdus[i].image.FromPath? && vdus[j].image.FromPath? ==>
                    (r.vdus[i].image == r.vdus[j].image <==> vdus[i].image == vdus[j].image))
              && |cloud.flavors| == |old(cloud.flavors)| + |Specs(vdus)|
              && (forall i :: 0 <= i < |vdus| ==> r.vdus[i].flavor in cloud.flavors && cloud.flavors[r.vdus[i].flavor] == vdus[i].spec)
              && (forall i :: 0 <= i < |vdus| && vdus[i].image.ById? ==>
                    r.vdus[i].image == Some(vdus[i].image.id) && vdus[i].image.id in old(cloud.images))
              && (forall i :: 0 <= i < |vdus| && vdus[i].image.FromPath? ==>
                    && r.vdus[i].image.Some? && r.vdus[i].image.value in cloud.images
                    && cloud.images[r.vdus[i].image.value] == vdus[i].image.path)
    ensures r.ImageLeft? <==> cloud.failed.ImagePoll?
    ensures r.CleanupFailed? <==> cloud.failed.Deletion?
    ensures r.Undone? ==> cloud.flavors == old(cloud.flavors) && cloud.images == old(cloud.images)
    ensures r.ImageLeft? ==> cloud.flavors == old(cloud.flavors) && OneImageMore(old(cloud.images), cloud.images)
    ensures r.CleanupFailed? ==>
              && Grown(old(cloud.flavors), cloud.flavors, r.flavorsLeft) && Grown(old(cloud.images), cloud.images, r.imagesLeft)
              && (r.flavorsLeft != [] || r.imagesLeft != [])
    ensures !r.Config? && (cloud.failed.NoCall? || cloud.failed.Deletion?) ==>
              exists v :: v in vdus && v.image.ById? && v.image.id !in cloud.usable
    ensures r.Config? ==> cloud.failed.NoCall?
  {
    hide Assigned, Get, Grown, Ids, Kept, Leaked, OneEach, OneImageMore, Specs;
    ghost var flavors0, images0 := cloud.flavors, cloud.images;
    var flavorList: Created<Spec>, imageList: Created<string>, checked: set<nat>, done: seq<VduConfig> := [], [], {}, [];
    NothingCreated(flavors0, images0, vdus);
    for i := 0 to |vdus|
      invariant cloud.Valid() && cloud.failed.NoCall? && i == |done|
      invariant Grown(flavors0, cloud.flavors, flavorList) && Grown(images0, cloud.images, imageList)
      invariant OneEach(flavorList) && OneEach(imageList) && Assigned(vdus, done, flavorList, imageList)
      invariant checked <= cloud.usable && forall j :: 0 <= j < i && vdus[j].image.ById? ==> vdus[j].image.id in cloud.usable
    {
      var config;
      flavorList, imageList, checked, config :=
        Configure(cloud, flavorList, imageList, checked, vdus[i], flavors0, images0, vdus, done);
      if config.None? {
        r := Undo(cloud, flavorList, imageList, flavors0, images0);
        assert vdus[i] in vdus;
        return;
      }
      done := done + [config.value];
    }
    AllThere(vdus, done, flavors0, cloud.flavors, flavorList, images0, cloud.images, imageList);
    r := Config(done);
  }

  lemma GrownKept<K>(before: map<nat, K>, now: map<nat, K>, list: Created<K>)
    requires Grown(before, now, list)
    ensures Kept(before, now)
  {
    forall id | id in before ensures id in now && now[id] == before[id] {
      assert id in now.Keys;
    }
  }

  lemma AllKept<K>(before: map<nat, K>)
    ensures Kept(before, before)
  {
  }

  lemma OneMoreKept(before: map<nat, string>, now: map<nat, string>)
    requires OneImageMore(before, now)
    ensures Kept(before, now)
  {
    var id :| id in now && id !in before && now - {id} == before;
    forall x | x in before ensures x in now && now[x] == before[x] {
      assert x in now - {id};
    }
  }

  lemma ImagesThere(vdus: seq<VduTemplate>, done: seq<VduConfig>, before: map<nat, string>, now: map<nat, string>,
                    flavors: Created<Spec>, images: Created<string>)
    requires Assigned(vdus, done, flavors, images) && |done| == |vdus| && Grown(before, now, images)
    ensures forall i :: 0 <= i < |vdus| && vdus[i].image.FromPath? ==>
              done[i].image.Some? && done[i].image.value in now && now[done[i].image.value] == vdus[i].image.path
  {
    forall i | 0 <= i < |vdus| && vdus[i].image.FromPath?
      ensures done[i].image.Some? && done[i].image.value in now && now[done[i].image.value] == vdus[i].image.path
    {
      assert ImageIs(images, vdus[i].image, done[i].image);
      GetInIds(images, vdus[i].image.path);
      var k :| 0 <= k < |images| && images[k] == (vdus[i].image.path, done[i].image.value);
      assert images[k].1 in Ids(images);
      assert done[i].image.value in now.Keys;
    }
  }

  lemma NothingCreated(flavors: map<nat, Spec>, images: map<nat, string>, vdus: seq<VduTemplate>)
    ensures Grown(flavors, flavors, []) && Grown(images, images, []) && OneEach<Spec>([]) && OneEach<string>([])
    ensures Assigned(vdus, [], [], [])
  {
    assert Ids<Spec>([]) == {} && Ids<string>([]) == {};
  }

  lemma GivenKept(vdus: seq<VduTemplate>, done: seq<VduConfig>, flavors: Created<Spec>, images: Created<string>)
    requires Assigned(vdus, done, flavors, images) && |done| == |vdus|
    ensures forall i :: 0 <= i < |vdus| && vdus[i].image.ById? ==> done[i].image == Some(vdus[i].image.id)
  {
    forall i | 0 <= i < |vdus| && vdus[i].image.ById? ensures done[i].image == Some(vdus[i].image.id) {
      assert ImageIs(images, vdus[i].image, done[i].image);
    }
  }

  lemma FlavorsThere(vdus: seq<VduTemplate>, done: seq<VduConfig>, before: map<nat, Spec>, now: map<nat, Spec>,
                     flavors: Created<Spec>, images: Created<string>)
    requires Assigned(vdus, done, flavors, images) && |done| == |vdus| && Grown(before, now, flavors)
    ensures forall i :: 0 <= i < |vdus| ==> done[i].flavor in now && now[done[i].flavor] == vdus[i].spec
    ensures |now| == |before| + |Ids(flavors)|
  {
    forall i | 0 <= i < |vdus| ensures done[i].flavor in now && now[done[i].flavor] == vdus[i].spec {
      GetInIds(flavors, vdus[i].spec);
      var k :| 0 <= k < |flavors| && flavors[k] == (vdus[i].spec, done[i].flavor);
      assert flavors[k].1 in Ids(flavors);
      assert done[i].flavor in now.Keys;
    }
    assert |now| == |now.Keys| && |before| == |before.Keys|;
  }

  /** What holds once every VDU has its flavor and image. */
  lemma AllThere(vdus: seq<VduTemplate>, done: seq<VduConfig>, flavors0: map<nat, Spec>, flavors: map<nat, Spec>,
                 flavorList: Created<Spec>, images0: map<nat, string>, images: map<nat, string>, imageList: Created<string>)
    requires Assigned(vdus, done, flavorList, imageList) && |done| == |vdus| && OneEach(flavorList) && OneEach(imageList)
    requires Grown(flavors0, flavors, flavorList) && Grown(images0, images, imageList)
    ensures Kept(flavors0, flavors) && Kept(images0, images) && |flavors| == |flavors0| + |Specs(vdus)|
    ensures forall i, j :: 0 <= i < |vdus| && 0 <= j < |vdus| ==> (done[i].flavor == done[j].flavor <==> vdus[i].spec == vdus[j].spec)
    ensures forall i, j :: 0 <= i < |vdus| && 0 <= j < |vdus| && vdus[i].image.FromPath? && vdus[j].image.FromPath? ==>
              (done[i].image == done[j].image <==> vdus[i].image == vdus[j].image)
    ensures forall i :: 0 <= i < |vdus| ==> done[i].flavor in flavors && flavors[done[i].flavor] == vdus[i].spec
    ensures forall i :: 0 <= i < |vdus| && vdus[i].image.ById? ==> done[i].image == Some(vdus[i].image.id)
    ensures forall i :: 0 <= i < |vdus| && vdus[i].image.FromPath? ==>
              done[i].image.Some? && done[i].image.value in images && images[done[i].image.value] == vdus[i].image.path
  {
    hide *;
    SharingFacts(vdus, done, flavorList, imageList);
    FlavorsThere(vdus, done, flavors0, flavors, flavorList, imageList);
    GivenKept(vdus, done, flavorList, imageList);
    ImagesThere(vdus, done, images0, images, flavorList, imageList);
    GrownKept(flavors0, flavors, flavorList);
    GrownKept(images0, images, imageList);
  }

  /** The exception handler. */
  method Undo(cloud: Cloud, flavorList: Created<Spec>, imageList: Created<string>, ghost flavors0: map<nat, Spec>,
              ghost images0: map<nat, string>)
    returns (r: Onboarded)
    requires cloud.Valid() && !cloud.failed.Deletion?
    requires Grown(flavors0, cloud.flavors, flavorList) && OneEach(flavorList) && OneEach(imageList)
    requires if cloud.failed.ImagePoll? then exists path :: Leaked(images0, cloud.images, imageList, path)
             else Grown(images0, cloud.images, imageList)
    modifies cloud`calls, cloud`failed, cloud`flavors, cloud`images
    ensures r.CleanupFailed? <==> cloud.failed.Deletion?
    ensures !r.CleanupFailed? ==> cloud.failed == old(cloud.failed)
    ensures !old(cloud.failed).NoCall? ==> !r.CleanupFailed?
    ensures r.ImageLeft? <==> old(cloud.failed).ImagePoll?
    ensures r.Undone? ==> cloud.flavors == flavors0 && cloud.images == images0
    ensures r.ImageLeft? ==> cloud.flavors == flavors0 && OneImageMore(images0, cloud.images)
    ensures r.CleanupFailed? ==>
              && Grown(flavors0, cloud.flavors, r.flavorsLeft) && Grown(images0, cloud.images, r.imagesLeft)
              && (r.flavorsLeft != [] || r.imagesLeft != [])
    ensures Kept(flavors0, cloud.flavors) && Kept(images0, cloud.images)
    ensures !r.Config?
  {
    hide Grown, Ids, Kept, Leaked, OneEach, OneImageMore;
    var polled := cloud.failed.ImagePoll?;
    GrownBack(flavors0, cloud.flavors, flavorList);
    if polled {
      ghost var path :| Leaked(images0, cloud.images, imageList, path);
      LeakedBack(images0, cloud.images, imageList, path);
    } else {
      GrownBack(images0, cloud.images, imageList);
    }
    var ok, flavorsGone, imagesGone := TemplateCleanup(cloud, flavorList, imageList);
    assert flavorList[..|flavorList|] == flavorList && imageList[..|imageList|] == imageList;
    if !ok {
      r := CleanupFailed(flavorList[flavorsGone..], imageList[imagesGone..]);
      GrownPart(flavors0, old(cloud.flavors), flavorList, flavorsGone);
      GrownPart(images0, old(cloud.images), imageList, imagesGone);
      GrownKept(flavors0, cloud.flavors, r.flavorsLeft);
      GrownKept(images0, cloud.images, r.imagesLeft);
    } else if polled {
      r := ImageLeft;
      OneMoreKept(images0, cloud.images);
      AllKept(flavors0);
    } else {
      r := Undone;
      AllKept(flavors0);
      AllKept(images0);
    }
  }
}
