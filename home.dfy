/**
 * The home page: one small carousel per featured project, kept in a single
 * record of indices keyed "project1" and "project2", and a call-back form.
 */
module Home {
  import opened Cycler
  import opened Forms
  import ProjectId
  import opened Wrappers

  datatype FeaturedProject = FeaturedProject(id: nat, title: string, images: seq<string>)

  const FeaturedProjects: seq<FeaturedProject> := [
    FeaturedProject(1, "Luxury Downtown Loft",
      ["pexels-photo-1457842", "pexels-photo-1571460", "pexels-photo-1571471"]),
    FeaturedProject(2, "Modern Family Home",
      ["pexels-photo-1396132", "pexels-photo-1571453", "pexels-photo-1571463"])
  ]

  /** The cycle length written into both arrow handlers as a literal. */
  const CycleLength: nat := 3

  /** The keys of the index record. */
  const ImageKeys: set<string> := {"project1", "project2"}

  const CallbackFields: set<string> := {"name", "phone"}

  /** The key a project's arrows pass: `project${index + 1}`. */
  function ProjectKey(index: nat): (r: string)
    ensures |r| > |"project"| && r[..|"project"|] == "project"
    ensures ProjectId.ParseId(Some(r[|"project"|..])) == Some(index + 1)
    ensures ProjectId.AllDigits(r[|"project"|..]) && r[|"project"|] != '0'
  {
    var n := ProjectId.ToDecimal(index + 1);
    ProjectId.ParseIdRoundTrip(index + 1);
    assert ("project" + n)[|"project"|..] == n;
    "project" + n
  }

  /** Different positions give different keys, so no two carousels share an index. */
  lemma ProjectKeyInjective(i: nat, j: nat)
    requires ProjectKey(i) == ProjectKey(j)
    ensures i == j
  {
    var k := ProjectKey(i);
    assert ProjectId.ParseId(Some(k[|"project"|..])) == Some(i + 1);
  }

  /** The keys built from the featured projects' positions are exactly the record's keys, one per project. */
  lemma ProjectKeysMatchRecord()
    ensures forall i :: 0 <= i < |FeaturedProjects| ==> ProjectKey(i) in ImageKeys
    ensures forall k :: k in ImageKeys ==> exists i :: 0 <= i < |FeaturedProjects| && ProjectKey(i) == k
    ensures ProjectKey(0) != ProjectKey(1)
  {
    assert ProjectKey(0) == "project1";
    assert ProjectKey(1) == "project2";
  }

  /** The key is the only string of its shape (digits, no leading zero) that names position `index`. */
  lemma ProjectKeyUnique(index: nat, k: string)
    requires |k| > |"project"| && k[..|"project"|] == "project"
    requires ProjectId.AllDigits(k[|"project"|..]) && k[|"project"|] != '0'
    requires ProjectId.ParseId(Some(k[|"project"|..])) == Some(index + 1)
    ensures k == ProjectKey(index)
  {
    var d := k[|"project"|..];
    ProjectId.ParseDigitsId(d);
    ProjectId.CanonicalDecimal(d);
    assert k == "project" + d;
  }

  /** The literal cycle length is the length of each featured project's image list. */
  lemma CycleLengthMatchesImages()
    ensures forall i :: 0 <= i < |FeaturedProjects| ==> |FeaturedProjects[i].images| == CycleLength
  {
  }

  class HomePage {
    var currentImage: map<string, nat>
    var formData: Draft

    ghost predicate Valid()
      reads this
    {
      && currentImage.Keys == ImageKeys
      && (forall k :: k in currentImage ==> currentImage[k] < CycleLength)
      && formData.Keys == CallbackFields
    }

    constructor ()
      ensures Valid()
      ensures currentImage == map["project1" := 0, "project2" := 0]
      ensures formData == Blank(CallbackFields)
    {
      currentImage := map["project1" := 0, "project2" := 0];
      formData := Blank(CallbackFields);
    }

    /** The right arrow of the project whose key is `key`. */
    method NextImage(key: string)
      requires Valid() && key in ImageKeys
      modifies this`currentImage
      ensures Valid()
      ensures currentImage[key] == Next(old(currentImage)[key], CycleLength)
      ensures forall k :: k in currentImage && k != key ==> currentImage[k] == old(currentImage)[k]
    {
      currentImage := currentImage[key := (currentImage[key] + 1) % 3];
    }

    /** The left arrow of the project whose key is `key`. */
    method PrevImage(key: string)
      requires Valid() && key in ImageKeys
      modifies this`currentImage
      ensures Valid()
      ensures currentImage[key] == Prev(old(currentImage)[key], CycleLength)
      ensures forall k :: k in currentImage && k != key ==> currentImage[k] == old(currentImage)[k]
    {
      currentImage := currentImage[key := if currentImage[key] == 0 then 2 else currentImage[key] - 1];
    }

    /** The image shown for the featured project at `index`: always one of that project's images. */
    function DisplayedImage(index: nat): (img: string)
      reads this
      requires Valid() && index < |FeaturedProjects|
      ensures img in FeaturedProjects[index].images
    {
      ProjectKeysMatchRecord();
      FeaturedProjects[index].images[currentImage[ProjectKey(index)]]
    }

    /** An input's change handler. */
    method ChangeField(field: string, value: string)
      requires Valid() && field in CallbackFields
      modifies this`formData
      ensures Valid()
      ensures formData == Put(old(formData), field, value)
    {
      formData := formData[field := value];
    }

    /** The submit handler, reached only once both required inputs are non-empty. */
    method Submit()
      requires Valid() && Filled(formData, CallbackFields)
      modifies this`formData
      ensures Valid()
      ensures formData == Blank(CallbackFields)
    {
      formData := map k | k in CallbackFields :: "";
    }
  }

  /** Three right-arrow presses on one project bring its image back and leave the other project alone. */
  method ThreePressesScenario(page: HomePage, i: nat)
    requires page.Valid() && i < |FeaturedProjects|
    modifies page
    ensures page.Valid()
    ensures page.currentImage == old(page.currentImage)
  {
    ProjectKeysMatchRecord();
    var key := ProjectKey(i);
    ghost var m0 := page.currentImage;
    page.NextImage(key);
    ghost var m1 := page.currentImage;
    page.NextImage(key);
    ghost var m2 := page.currentImage;
    page.NextImage(key);
    assert page.currentImage[key] == Advance(m0[key], 3, CycleLength);
    FullCycle(m0[key], CycleLength);
    forall k | k in page.currentImage
      ensures page.currentImage[k] == m0[k]
    {
      if k != key {
        assert page.currentImage[k] == m2[k] == m1[k] == m0[k];
      }
    }
    assert page.currentImage.Keys == m0.Keys;
    SameEntries(page.currentImage, m0);
  }

  lemma SameEntries(a: map<string, nat>, b: map<string, nat>)
    requires a.Keys == b.Keys
    requires forall k :: k in a ==> a[k] == b[k]
    ensures a == b
  {
  }
}
