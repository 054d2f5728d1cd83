/** The about-page editor of src/components/EditAbout.jsx: top-level text fields, a hero
    image uploaded on save, and an ordered list of portfolio sections. */
module EditAbout {
  import opened Common

  datatype Section = Section(title: string, text: string, imageId: string)

  /** The keys `handleSectionChange` is called with. */
  datatype SectionField = SectionTitle | SectionText

  /** The `name` attributes of the inputs wired to `handleChange`. */
  datatype AboutField = Title | Subtitle | Bio

  datatype About = About(title: string, subtitle: string, bio: string,
                         heroImageId: string, sections: seq<Section>)

  const EmptySection := Section("", "", "")

  const SECTION_UPLOADED := "\U{2705} Section image uploaded!"
  const SECTION_FAILED := "\U{274C} Failed to upload section image."
  const SAVED := "\U{2705} About content saved!"
  const SAVE_FAILED := "\U{274C} Failed to save changes."

  function AboutGet(a: About, f: AboutField): string
  {
    match f
    case Title => a.title
    case Subtitle => a.subtitle
    case Bio => a.bio
  }

  /** `{ ...about, [name]: value }`: the hero id, the sections and the other fields stay. */
  function WithAboutField(a: About, f: AboutField, v: string): (r: About)
    ensures AboutGet(r, f) == v
    ensures forall g :: g != f ==> AboutGet(r, g) == AboutGet(a, g)
    ensures r.heroImageId == a.heroImageId && r.sections == a.sections
  {
    match f
    case Title => a.(title := v)
    case Subtitle => a.(subtitle := v)
    case Bio => a.(bio := v)
  }

  function SectionGet(s: Section, f: SectionField): string
  {
    match f
    case SectionTitle => s.title
    case SectionText => s.text
  }

  /** `section[field] = value`: the other text field and the image id stay. */
  function WithSectionField(s: Section, f: SectionField, v: string): (r: Section)
    ensures SectionGet(r, f) == v
    ensures forall g :: g != f ==> SectionGet(r, g) == SectionGet(s, g)
    ensures r.imageId == s.imageId
  {
    match f
    case SectionTitle => s.(title := v)
    case SectionText => s.(text := v)
  }

  /** The record `save` sends: the current one, with `heroImageId` replaced by the upload's id
      when a hero file is pending. None when that upload threw and nothing is sent. */
  function SaveRecord(about: About, heroImageFile: Option<FileRef>, upload: Upload): (r: Option<About>)
    ensures heroImageFile.None? ==> r == Some(about)
    ensures heroImageFile.Some? ==> (r.None? <==> upload.UploadFailed?)
    ensures heroImageFile.Some? && upload.Uploaded? ==> r.Some? && r.value.heroImageId == upload.id
    ensures r.Some? ==> r.value.(heroImageId := about.heroImageId) == about
  {
    if heroImageFile.None? then Some(about)
    else match upload
      case UploadFailed => None
      case Uploaded(id) => Some(about.(heroImageId := id))
  }

  class AboutEditor {
    var about: About
    var heroImageFile: Option<FileRef>
    var showViewLink: bool
    var effects: seq<Effect>

    /** The editor once the GET of the about page has returned `loaded`. */
    constructor (loaded: About)
      ensures about == loaded && heroImageFile == None && !showViewLink && effects == []
    {
      about := loaded;
      heroImageFile := None;
      showViewLink := false;
      effects := [];
    }

    /** `handleChange`. */
    method HandleChange(name: AboutField, value: string)
      modifies this
      ensures about == WithAboutField(old(about), name, value)
      ensures heroImageFile == old(heroImageFile) && showViewLink == old(showViewLink)
      ensures effects == old(effects)
    {
      about := WithAboutField(about, name, value);
    }

    /** `handleSectionChange(index, field, value)`. */
    method HandleSectionChange(index: nat, field: SectionField, value: string)
      requires index < |about.sections|
      modifies this
      ensures about == old(about).(sections := old(about.sections)[index := WithSectionField(old(about.sections[index]), field, value)])
      ensures heroImageFile == old(heroImageFile) && showViewLink == old(showViewLink)
      ensures effects == old(effects)
    {
      about := about.(sections := about.sections[index := WithSectionField(about.sections[index], field, value)]);
    }

    /** The hero file input's `onChange` (`files[0] || null`). */
    method SelectHeroImage(file: Option<FileRef>)
      modifies this
      ensures heroImageFile == file
      ensures about == old(about) && showViewLink == old(showViewLink) && effects == old(effects)
    {
      heroImageFile := file;
    }

    /** `handleSectionImageUpload(index, file)`: nothing without a file or without a section
        at `index`; otherwise the upload's outcome decides between replacing that section's
        `imageId` and a failure toast. */
    method HandleSectionImageUpload(index: nat, file: Option<FileRef>, upload: Upload)
      modifies this
      ensures file.None? || |old(about.sections)| <= index ==> about == old(about) && effects == old(effects)
      ensures file.Some? && index < |old(about.sections)| && upload.UploadFailed? ==>
                about == old(about) && effects == old(effects) + [Toast(SECTION_FAILED)]
      ensures file.Some? && index < |old(about.sections)| && upload.Uploaded? ==>
                about == old(about).(sections := old(about.sections)[index := old(about.sections[index]).(imageId := upload.id)])
                && effects == old(effects) + [Toast(SECTION_UPLOADED)]
      ensures heroImageFile == old(heroImageFile) && showViewLink == old(showViewLink)
    {
      if file.None? {
        return;
      }
      if index >= |about.sections| {
        return;
      }
      match upload
      case UploadFailed =>
        effects := effects + [Toast(SECTION_FAILED)];
      case Uploaded(id) =>
        about := about.(sections := about.sections[index := about.sections[index].(imageId := id)]);
        effects := effects + [Toast(SECTION_UPLOADED)];
    }

    /** `addSection`. */
    method AddSection()
      modifies this
      ensures about == old(about).(sections := old(about.sections) + [EmptySection])
      ensures heroImageFile == old(heroImageFile) && showViewLink == old(showViewLink)
      ensures effects == old(effects)
    {
      about := about.(sections := about.sections + [EmptySection]);
    }

    /** `removeSection(index)`: a splice, with no guard. */
    method RemoveSection(index: nat)
      modifies this
      ensures about == old(about).(sections := SpliceOut(old(about.sections), index))
      ensures heroImageFile == old(heroImageFile) && showViewLink == old(showViewLink)
      ensures effects == old(effects)
    {
      about := about.(sections := SpliceOut(about.sections, index));
    }

    /** `save`, as written: the hero upload (given by `upload`, consulted only when a hero file
        is pending), then the PUT (success given by `putOk`). Returns the record sent, if the
        PUT was reached. The editor's own record is left as it was, without the new hero id. */
    method Save(upload: Upload, putOk: bool) returns (sent: Option<About>)
      modifies this
      ensures sent == SaveRecord(old(about), old(heroImageFile), upload)
      ensures about == old(about)
      ensures sent.Some? && putOk ==>
                heroImageFile == None && showViewLink && effects == old(effects) + [Toast(SAVED)]
      ensures !(sent.Some? && putOk) ==>
                heroImageFile == old(heroImageFile) && showViewLink == old(showViewLink)
                && effects == old(effects) + [Toast(SAVE_FAILED)]
    {
      var updatedAbout := about;
      if heroImageFile.Some? {
        if upload.UploadFailed? {
          effects := effects + [Toast(SAVE_FAILED)];
          return None;
        }
        updatedAbout := updatedAbout.(heroImageId := upload.id);
      }
      sent := Some(updatedAbout);
      if !putOk {
        effects := effects + [Toast(SAVE_FAILED)];
        return;
      }
      heroImageFile := None;
      showViewLink := true;
      effects := effects + [Toast(SAVED)];
    }

    /** `save` as evidently intended: after a successful PUT the editor holds the record it
        sent, so the uploaded hero id is what the page shows and what the next save sends. */
    method SaveKeepingHero(upload: Upload, putOk: bool) returns (sent: Option<About>)
      modifies this
      ensures sent == SaveRecord(old(about), old(heroImageFile), upload)
      ensures sent.Some? && putOk ==>
                about == sent.value && heroImageFile == None && showViewLink
                && effects == old(effects) + [Toast(SAVED)]
      ensures !(sent.Some? && putOk) ==>
                about == old(about) && heroImageFile == old(heroImageFile) && showViewLink == old(showViewLink)
                && effects == old(effects) + [Toast(SAVE_FAILED)]
    {
      sent := Save(upload, putOk);
      if sent.Some? && putOk {
        about := sent.value;
      }
    }
  }

  /** As written, a hero image uploaded by one save is reverted by the next: the second PUT
      carries the hero id the page was loaded with. */
  method StaleHeroOnSecondSave() returns (first: Option<About>, second: Option<About>)
    ensures first.Some? && first.value.heroImageId == "new-hero"
    ensures second.Some? && second.value.heroImageId == "old-hero"
  {
    var editor := new AboutEditor(About("About", "", "", "old-hero", []));
    editor.SelectHeroImage(Some("hero.jpg"));
    first := editor.Save(Uploaded("new-hero"), true);
    editor.HandleChange(Bio, "A new bio");
    second := editor.Save(UploadFailed, true);
  }

  /** With the corrected save, the same two saves both send the uploaded hero id. */
  method HeroKeptOnSecondSave() returns (first: Option<About>, second: Option<About>)
    ensures first.Some? && first.value.heroImageId == "new-hero"
    ensures second.Some? && second.value.heroImageId == "new-hero"
  {
    var editor := new AboutEditor(About("About", "", "", "old-hero", []));
    editor.SelectHeroImage(Some("hero.jpg"));
    first := editor.SaveKeepingHero(Uploaded("new-hero"), true);
    editor.HandleChange(Bio, "A new bio");
    second := editor.SaveKeepingHero(UploadFailed, true);
  }
}
