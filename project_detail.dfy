/**
 * The project detail page: an image carousel with an auto-advance tick, a
 * three-way section selector, a floor-plan selector and an inquiry form.
 * Image URLs are abbreviated to their photo names.
 */
module ProjectDetail {
  import opened Wrappers
  import opened Cycler
  import opened Forms
  import ProjectId

  /** A section button; the source names the caption `label`, a word Dafny reserves. */
  datatype SectionButton = SectionButton(key: string, labelText: string)

  datatype FloorPlan = FloorPlan(name: string, sqft: nat, ceilingHeight: string, image: string)

  const Images: seq<string> := [
    "pexels-photo-1457842", "pexels-photo-1571460", "pexels-photo-1571471",
    "pexels-photo-1571453", "pexels-photo-1571463"
  ]

  const FloorPlans: seq<FloorPlan> := [
    FloorPlan("Layout A", 1200, "10 ft", "pexels-photo-3288103"),
    FloorPlan("Layout B", 1350, "12 ft", "pexels-photo-3288104")
  ]

  const SectionButtons: seq<SectionButton> := [
    SectionButton("images", "Gallery"),
    SectionButton("video", "Virtual Tour"),
    SectionButton("floorplan", "Floor Plans")
  ]

  /** The section shown first, and the only one during which the carousel auto-advances. */
  const GallerySection: string := "images"

  const InquiryFields: set<string> := {"name", "email", "phone", "message"}

  /** The inputs carrying the `required` attribute; the message is optional. */
  const InquiryRequired: set<string> := {"name", "email", "phone"}

  predicate IsSectionKey(key: string)
  {
    exists b :: 0 <= b < |SectionButtons| && SectionButtons[b].key == key
  }

  class DetailPage {
    /** The parsed route id; the data shown does not depend on it. */
    const projectId: Option<nat>
    var currentImage: nat
    var selectedSection: string
    var selectedFloorPlan: nat
    var formData: Draft

    ghost predicate Valid()
      reads this
    {
      && currentImage < |Images|
      && IsSectionKey(selectedSection)
      && selectedFloorPlan < |FloorPlans|
      && formData.Keys == InquiryFields
    }

    constructor (id: Option<string>)
      ensures Valid()
      ensures projectId == ProjectId.ParseId(id)
      ensures currentImage == 0 && selectedSection == GallerySection && selectedFloorPlan == 0
      ensures formData == Blank(InquiryFields)
    {
      projectId := ProjectId.ParseId(id);
      currentImage := 0;
      selectedSection := GallerySection;
      selectedFloorPlan := 0;
      formData := Blank(InquiryFields);
      assert SectionButtons[0].key == GallerySection;
    }

    /** The right arrow. */
    method NextImage()
      requires Valid()
      modifies this`currentImage
      ensures Valid()
      ensures currentImage == Next(old(currentImage), |Images|)
    {
      currentImage := (currentImage + 1) % |Images|;
    }

    /** The left arrow. */
    method PrevImage()
      requires Valid()
      modifies this`currentImage
      ensures Valid()
      ensures currentImage == Prev(old(currentImage), |Images|)
    {
      currentImage := if currentImage == 0 then |Images| - 1 else currentImage - 1;
    }

    /** A thumbnail or progress dot; `index` comes from mapping over the images. */
    method ShowImage(index: nat)
      requires Valid() && index < |Images|
      modifies this`currentImage
      ensures Valid()
      ensures currentImage == index
    {
      currentImage := index;
    }

    /**
     * One firing of the four-second interval. The interval exists only while
     * the gallery section is selected, so in any other section a tick has no
     * effect.
     */
    method Tick()
      requires Valid()
      modifies this`currentImage
      ensures Valid()
      ensures selectedSection == GallerySection ==> currentImage == Next(old(currentImage), |Images|)
      ensures selectedSection != GallerySection ==> currentImage == old(currentImage)
    {
      if selectedSection == GallerySection {
        currentImage := (currentImage + 1) % |Images|;
      }
    }

    /** A section button; `b` is the button's position in `SectionButtons`. */
    method SelectSection(b: nat)
      requires Valid() && b < |SectionButtons|
      modifies this`selectedSection
      ensures Valid()
      ensures selectedSection == SectionButtons[b].key
      ensures currentImage == old(currentImage) && selectedFloorPlan == old(selectedFloorPlan)
    {
      selectedSection := SectionButtons[b].key;
    }

    /** A floor-plan button; `index` comes from mapping over the floor plans. */
    method SelectFloorPlan(index: nat)
      requires Valid() && index < |FloorPlans|
      modifies this`selectedFloorPlan
      ensures Valid()
      ensures selectedFloorPlan == index
      ensures currentImage == old(currentImage) && selectedSection == old(selectedSection)
    {
      selectedFloorPlan := index;
    }

    /** An input's change handler. */
    method ChangeField(field: string, value: string)
      requires Valid() && field in InquiryFields
      modifies this`formData
      ensures Valid()
      ensures formData == Put(old(formData), field, value)
    {
      formData := formData[field := value];
    }

    /** The submit handler, reached only once the required inputs are non-empty. */
    method Submit()
      requires Valid() && Filled(formData, InquiryRequired)
      modifies this`formData
      ensures Valid()
      ensures formData == Blank(InquiryFields)
      ensures currentImage == old(currentImage) && selectedSection == old(selectedSection)
      ensures selectedFloorPlan == old(selectedFloorPlan)
    {
      formData := map k | k in InquiryFields :: "";
    }

    /** The "n / total" counter over the main image. */
    function Counter(): (c: nat)
      reads this
      requires Valid()
      ensures 1 <= c <= |Images|
      ensures c - 1 == currentImage
    {
      currentImage + 1
    }

    /** The main image: always an image of the project. */
    function DisplayedImage(): (img: string)
      reads this
      requires Valid()
      ensures img in Images
    {
      Images[currentImage]
    }

    /** The floor plan shown in the floor-plan section: always one of the project's. */
    function DisplayedFloorPlan(): (plan: FloorPlan)
      reads this
      requires Valid()
      ensures plan in FloorPlans
    {
      FloorPlans[selectedFloorPlan]
    }
  }

  /** A section key reached by the buttons is one of the three keys. */
  lemma SectionKeys(key: string)
    requires IsSectionKey(key)
    ensures key == "images" || key == "video" || key == "floorplan"
  {
  }

  /** Arrows, ticks, thumbnails and section changes used in sequence keep the carousel in bounds. */
  method BrowseScenario(page: DetailPage)
    requires page.Valid() && page.currentImage == 0 && page.selectedSection == GallerySection
    modifies page
    ensures page.Valid() && page.currentImage == 0
  {
    page.NextImage();
    page.Tick();
    assert page.currentImage == 2;
    page.SelectSection(2);
    page.Tick();
    assert page.currentImage == 2;
    page.PrevImage();
    page.PrevImage();
    assert page.Counter() == 1;
  }
}
