/**
 * The material section of the admin dashboard: the add/edit form for a
 * learning material (its validation and the request it sends) and the tags
 * dialog, which lists the tags attached to a material and the tags that can
 * still be attached.
 */
module MaterialManagement {
  import opened Common
  import opened Collections
  import opened Text

  datatype Tag = Tag(id: int, name: string, createdAt: string, updatedAt: string)

  /** A material as the backend returns it; `tags` is absent when the record carries no association. */
  datatype Material = Material(
    id: int,
    url: string,
    metaTags: string,
    description: string,
    createdAt: string,
    updatedAt: string,
    tags: Option<seq<Tag>>)

  /** The possibly partial material the form is opened with: any field may be missing. */
  datatype MaterialDraft = MaterialDraft(
    id: Option<int>,
    url: Option<string>,
    description: Option<string>,
    metaTags: Option<string>)

  function TagId(t: Tag): int { t.id }

  const MaterialsPath: string := "/v1/api/materials"

  const ErrFetchAuthRequired: string := "Authentication required to fetch materials."
  const ErrRequired: string := "URL and Description are required."
  const ErrSaveAuthRequired: string := "Authentication required to save material."
  const ErrTagsAuthRequired: string := "Authentication required."

  // ---------------------------------------------------------------------------
  // Tags still available for a material
  // ---------------------------------------------------------------------------

  /** `new Set(currentTags.map(t => t.ID))`. */
  function IdSet(current: seq<Tag>): (ids: set<int>)
    ensures forall id :: id in ids <==> HasKey(current, TagId, id)
  {
    var ids := set t | t in current :: t.id;
    assert forall id :: HasKey(current, TagId, id) ==> id in ids by {
      forall id | HasKey(current, TagId, id) ensures id in ids {
        var i :| 0 <= i < |current| && TagId(current[i]) == id;
        assert current[i] in current;
      }
    }
    ids
  }

  /** `tags.filter(t => !currentTagIds.has(t.ID))`. */
  function AvailableTags(tags: seq<Tag>, current: seq<Tag>): (r: seq<Tag>)
    ensures forall t :: t in r <==> t in tags && !HasKey(current, TagId, t.id)
  {
    Filter(tags, (t: Tag) => t.id !in IdSet(current))
  }

  /** The available tags keep the catalogue's order and multiplicities. */
  lemma AvailableTagsKeepOrder(tags: seq<Tag>, current: seq<Tag>)
    ensures IsSubsequence(AvailableTags(tags, current), tags)
    ensures forall t :: multiset(AvailableTags(tags, current))[t] ==
                        if HasKey(current, TagId, t.id) then 0 else multiset(tags)[t]
  {
    var p := (t: Tag) => t.id !in IdSet(current);
    FilterIsSubsequence(tags, p);
    FilterCounts(tags, p);
  }

  /** A material without tags can take every tag of the catalogue. */
  lemma AvailableTagsWithoutCurrent(tags: seq<Tag>)
    ensures AvailableTags(tags, []) == tags
  {
    FilterKeepsAll(tags, (t: Tag) => t.id !in IdSet([]));
  }

  /** A catalogue without duplicate IDs gives an available list without duplicate IDs. */
  lemma AvailableTagsDistinct(tags: seq<Tag>, current: seq<Tag>)
    requires DistinctKeys(tags, TagId)
    ensures DistinctKeys(AvailableTags(tags, current), TagId)
  {
    FilterKeepsDistinct(tags, (t: Tag) => t.id !in IdSet(current), TagId);
  }

  /** Attaching one more tag to the material only removes tags with that tag's ID from the available list. */
  lemma AvailableTagsAfterAttach(tags: seq<Tag>, current: seq<Tag>, added: Tag)
    ensures forall t :: t in AvailableTags(tags, current + [added]) <==>
                        t in AvailableTags(tags, current) && t.id != added.id
  {
    forall t: Tag
      ensures HasKey(current + [added], TagId, t.id) <==> HasKey(current, TagId, t.id) || t.id == added.id
    {
      var c := current + [added];
      if HasKey(current, TagId, t.id) {
        var i :| 0 <= i < |current| && TagId(current[i]) == t.id;
        assert c[i] == current[i];
      }
      if t.id == added.id {
        assert c[|current|] == added;
      }
    }
  }

  // ---------------------------------------------------------------------------
  // The save request
  // ---------------------------------------------------------------------------

  /** `currentMaterial?.ID`, read as a condition: present and not 0. */
  predicate HasTruthyId(current: Option<MaterialDraft>) {
    current.Some? && current.value.id.Some? && current.value.id.value != 0
  }

  datatype MaterialPayload = MaterialPayload(url: string, description: string, metaTags: string)

  datatype SaveRequest = SaveRequest(verb: HttpMethod, url: string, payload: MaterialPayload)

  /** The request `handleSaveMaterial` sends: PUT to the material's URL when it has an ID, POST to the collection otherwise. */
  function MaterialSaveRequest(backendUrl: string, current: Option<MaterialDraft>, url: string,
                               description: string, metaTags: string): (r: SaveRequest)
    ensures r.verb == Put <==> HasTruthyId(current)
    ensures HasTruthyId(current) ==> r.url == backendUrl + MaterialsPath + "/" + IntToString(current.value.id.value)
    ensures !HasTruthyId(current) ==> r.url == backendUrl + MaterialsPath
    ensures r.payload == MaterialPayload(url, description, metaTags)
  {
    var payload := MaterialPayload(url, description, metaTags);
    if HasTruthyId(current) then
      SaveRequest(Put, backendUrl + MaterialsPath + "/" + IntToString(current.value.id.value), payload)
    else
      SaveRequest(Post, backendUrl + MaterialsPath, payload)
  }

  /** Two updates sent to the same URL are updates of the same material, and an update never goes to the creation URL. */
  lemma SaveUrlIdentifiesMaterial(backendUrl: string, a: Option<MaterialDraft>, b: Option<MaterialDraft>,
                                  url: string, description: string, metaTags: string)
    requires HasTruthyId(a)
    ensures MaterialSaveRequest(backendUrl, a, url, description, metaTags).url !=
            backendUrl + MaterialsPath
    ensures HasTruthyId(b) &&
            MaterialSaveRequest(backendUrl, a, url, description, metaTags).url ==
            MaterialSaveRequest(backendUrl, b, url, description, metaTags).url ==>
              a.value.id == b.value.id
  {
    var prefix := backendUrl + MaterialsPath + "/";
    var ua := MaterialSaveRequest(backendUrl, a, url, description, metaTags).url;
    var ub := MaterialSaveRequest(backendUrl, b, url, description, metaTags).url;
    assert ua == prefix + IntToString(a.value.id.value) && ua[|prefix|..] == IntToString(a.value.id.value);
    assert |ua| > |backendUrl + MaterialsPath|;
    if HasTruthyId(b) && ua == ub {
      assert ub == prefix + IntToString(b.value.id.value) && ub[|prefix|..] == IntToString(b.value.id.value);
      IntToStringInjective(a.value.id.value, b.value.id.value);
    }
  }

  /** The URL that attaches a tag to a material (`add`) or detaches it (`remove`), below the materials path. */
  function TagLinkUrl(backendUrl: string, materialId: int, tagId: int, attach: bool): (r: string)
    ensures |r| > |backendUrl + MaterialsPath| + 1 && r[..|backendUrl + MaterialsPath| + 1] == backendUrl + MaterialsPath + "/"
    ensures attach ==> |r| >= 4 && r[|r| - 4..] == "/add"
    ensures !attach ==> |r| >= 7 && r[|r| - 7..] == "/remove"
  {
    var prefix := backendUrl + MaterialsPath + "/";
    var suffix := if attach then "/add" else "/remove";
    var rest := IntToString(materialId) + ("/tags/" + (IntToString(tagId) + suffix));
    var r := prefix + rest;
    Halves(prefix, rest);
    var mid := IntToString(materialId) + ("/tags/" + IntToString(tagId));
    assert rest == mid + suffix;
    assert r == (prefix + mid) + suffix;
    Halves(prefix + mid, suffix);
    r
  }

  /** A tag-link URL names its material, its tag and its direction: different requests never share a URL. */
  lemma TagLinkUrlIdentifiesLink(backendUrl: string, m1: int, t1: int, a1: bool, m2: int, t2: int, a2: bool)
    requires TagLinkUrl(backendUrl, m1, t1, a1) == TagLinkUrl(backendUrl, m2, t2, a2)
    ensures m1 == m2 && t1 == t2 && a1 == a2
  {
    var prefix := backendUrl + MaterialsPath + "/";
    var e1 := if a1 then "/add" else "/remove";
    var e2 := if a2 then "/add" else "/remove";
    var u1 := "/tags/" + (IntToString(t1) + e1);
    var u2 := "/tags/" + (IntToString(t2) + e2);
    assert prefix + (IntToString(m1) + u1) == prefix + (IntToString(m2) + u2);
    CancelPrefix(prefix, IntToString(m1) + u1, IntToString(m2) + u2);
    IntToStringHasNoSlash(m1);
    IntToStringHasNoSlash(m2);
    SplitAtFirst(IntToString(m1), u1, IntToString(m2), u2, '/');
    IntToStringInjective(m1, m2);
    CancelPrefix("/tags/", IntToString(t1) + e1, IntToString(t2) + e2);
    IntToStringHasNoSlash(t1);
    IntToStringHasNoSlash(t2);
    SplitAtFirst(IntToString(t1), e1, IntToString(t2), e2, '/');
    IntToStringInjective(t1, t2);
    assert |e1| == |e2|;
  }

  /** `material?.Field || ''`. */
  function FieldOrEmpty(field: Option<string>): (r: string)
    ensures field.Some? ==> r == field.value
    ensures field.None? ==> r == ""
  {
    field.GetOr("")
  }

  // ---------------------------------------------------------------------------
  // The component's state
  // ---------------------------------------------------------------------------

  /**
   * The state hooks of the material section. Each method is one event handler;
   * backend responses and the availability of credentials are parameters.
   */
  class MaterialForm {
    const tags: seq<Tag>
    var materials: seq<Material>
    var loadingMaterials: bool
    var materialError: Option<string>
    var isMaterialModalOpen: bool
    var currentMaterial: Option<MaterialDraft>
    var materialUrl: string
    var materialDescription: string
    var materialMetaTags: string
    var isMaterialTagsModalOpen: bool
    var materialForTags: Option<Material>
    var tagsForCurrentMaterialInModal: seq<Tag>
    var availableTagsForModal: seq<Tag>
    var loadingMaterialTagsModal: bool
    var materialTagsModalError: Option<string>

    /**
     * A closed form holds no material and blank fields; the tags dialog names
     * its material exactly while it is open, holds nothing while closed, and
     * only ever offers catalogue tags the material does not already carry.
     */
    ghost predicate Valid()
      reads this
    {
      (!isMaterialModalOpen ==>
         currentMaterial.None? && materialUrl == "" && materialDescription == "" && materialMetaTags == "") &&
      (isMaterialTagsModalOpen <==> materialForTags.Some?) &&
      (!isMaterialTagsModalOpen ==>
         tagsForCurrentMaterialInModal == [] && availableTagsForModal == [] &&
         materialTagsModalError.None? && !loadingMaterialTagsModal) &&
      IsSubsequence(availableTagsForModal, tags) &&
      (forall t :: t in availableTagsForModal ==> !HasKey(tagsForCurrentMaterialInModal, TagId, t.id))
    }

    constructor(tags: seq<Tag>)
      ensures Valid()
      ensures this.tags == tags && materials == [] && !loadingMaterials && materialError.None?
      ensures !isMaterialModalOpen && !isMaterialTagsModalOpen
    {
      this.tags := tags;
      materials := [];
      loadingMaterials := false;
      materialError := None;
      isMaterialModalOpen := false;
      currentMaterial := None;
      materialUrl := "";
      materialDescription := "";
      materialMetaTags := "";
      isMaterialTagsModalOpen := false;
      materialForTags := None;
      tagsForCurrentMaterialInModal := [];
      availableTagsForModal := [];
      loadingMaterialTagsModal := false;
      materialTagsModalError := None;
      new;
      assert IsSubsequence<Tag>([], tags);
    }

    /** `fetchMaterials`, given the backend's answer (`Ok(None)` is a null body). */
    method FetchMaterials(backendUrl: string, authorized: bool, response: Result<Option<seq<Material>>>)
      modifies this`materials, this`loadingMaterials, this`materialError
      ensures backendUrl == "" ==> unchanged(this)
      ensures backendUrl != "" && !authorized ==>
                materialError == Some(ErrFetchAuthRequired) && materials == old(materials) &&
                loadingMaterials == old(loadingMaterials)
      ensures backendUrl != "" && authorized ==> !loadingMaterials
      ensures backendUrl != "" && authorized && response.Ok? ==>
                materialError.None? && materials == response.value.GetOr([])
      ensures backendUrl != "" && authorized && response.Err? ==>
                materialError == Some(response.message) && materials == []
    {
      if backendUrl == "" {
        return;
      }
      if !authorized {
        materialError := Some(ErrFetchAuthRequired);
        return;
      }
      loadingMaterials := true;
      materialError := None;
      match response {
        case Ok(data) =>
          materials := data.GetOr([]);
        case Err(message) =>
          materialError := Some(message);
          materials := [];
      }
      loadingMaterials := false;
    }

    /** `handleOpenMaterialModal`: the form shows the given material's fields, blank where missing. */
    method OpenMaterialModal(material: Option<MaterialDraft>)
      requires Valid()
      modifies this`currentMaterial, this`materialUrl, this`materialDescription, this`materialMetaTags,
               this`isMaterialModalOpen, this`materialError
      ensures Valid()
      ensures currentMaterial == material && isMaterialModalOpen && materialError.None?
      ensures material.None? ==> materialUrl == "" && materialDescription == "" && materialMetaTags == ""
      ensures material.Some? ==>
                materialUrl == FieldOrEmpty(material.value.url) &&
                materialDescription == FieldOrEmpty(material.value.description) &&
                materialMetaTags == FieldOrEmpty(material.value.metaTags)
    {
      currentMaterial := material;
      materialUrl := if material.Some? then FieldOrEmpty(material.value.url) else "";
      materialDescription := if material.Some? then FieldOrEmpty(material.value.description) else "";
      materialMetaTags := if material.Some? then FieldOrEmpty(material.value.metaTags) else "";
      isMaterialModalOpen := true;
      materialError := None;
    }

    /** The form's inputs; they are only on screen while the form is open. */
    method EditFields(url: string, description: string, metaTags: string)
      requires Valid() && isMaterialModalOpen
      modifies this`materialUrl, this`materialDescription, this`materialMetaTags
      ensures Valid()
      ensures materialUrl == url && materialDescription == description && materialMetaTags == metaTags
    {
      materialUrl := url;
      materialDescription := description;
      materialMetaTags := metaTags;
    }

    /** `handleCloseMaterialModal`: the form is closed and blank. */
    method CloseMaterialModal()
      requires Valid()
      modifies this`currentMaterial, this`materialUrl, this`materialDescription, this`materialMetaTags,
               this`isMaterialModalOpen, this`materialError
      ensures Valid()
      ensures !isMaterialModalOpen && currentMaterial.None? && materialError.None?
      ensures materialUrl == "" && materialDescription == "" && materialMetaTags == ""
    {
      isMaterialModalOpen := false;
      currentMaterial := None;
      materialUrl := "";
      materialDescription := "";
      materialMetaTags := "";
      materialError := None;
    }

    /**
     * `handleSaveMaterial`, given the backend's answer to the request. Returns
     * the request sent, if any.
     */
    method SaveMaterial(backendUrl: string, authorized: bool, response: Result<()>)
      returns (request: Option<SaveRequest>)
      requires Valid()
      modifies this`currentMaterial, this`materialUrl, this`materialDescription, this`materialMetaTags,
               this`isMaterialModalOpen, this`materialError, this`loadingMaterials
      ensures Valid()
      ensures IsBlank(old(materialUrl)) || IsBlank(old(materialDescription)) || backendUrl == "" ==>
                request.None? && materialError == Some(ErrRequired) &&
                currentMaterial == old(currentMaterial) && isMaterialModalOpen == old(isMaterialModalOpen) &&
                materialUrl == old(materialUrl) && materialDescription == old(materialDescription) &&
                materialMetaTags == old(materialMetaTags) && loadingMaterials == old(loadingMaterials)
      ensures !IsBlank(old(materialUrl)) && !IsBlank(old(materialDescription)) && backendUrl != "" && !authorized ==>
                request.None? && materialError == Some(ErrSaveAuthRequired) &&
                currentMaterial == old(currentMaterial) && isMaterialModalOpen == old(isMaterialModalOpen) &&
                materialUrl == old(materialUrl) && materialDescription == old(materialDescription) &&
                materialMetaTags == old(materialMetaTags) && loadingMaterials == old(loadingMaterials)
      ensures !IsBlank(old(materialUrl)) && !IsBlank(old(materialDescription)) && backendUrl != "" && authorized ==>
                request == Some(MaterialSaveRequest(backendUrl, old(currentMaterial), old(materialUrl),
                                                    old(materialDescription), old(materialMetaTags))) &&
                !loadingMaterials &&
                (response.Ok? ==>
                   !isMaterialModalOpen && currentMaterial.None? && materialError.None? &&
                   materialUrl == "" && materialDescription == "" && materialMetaTags == "") &&
                (response.Err? ==>
                   materialError == Some(response.message) &&
                   currentMaterial == old(currentMaterial) && isMaterialModalOpen == old(isMaterialModalOpen) &&
                   materialUrl == old(materialUrl) && materialDescription == old(materialDescription) &&
                   materialMetaTags == old(materialMetaTags))
    {
      request := None;
      if IsBlank(materialUrl) || IsBlank(materialDescription) || backendUrl == "" {
        materialError := Some(ErrRequired);
        return;
      }
      if !authorized {
        materialError := Some(ErrSaveAuthRequired);
        return;
      }
      materialError := None;
      loadingMaterials := true;
      request := Some(MaterialSaveRequest(backendUrl, currentMaterial, materialUrl, materialDescription,
                                          materialMetaTags));
      match response {
        case Ok(_) =>
          CloseMaterialModal();
        case Err(message) =>
          materialError := Some(message);
      }
      loadingMaterials := false;
    }

    /**
     * `fetchMaterialDetailsForModal`, given the backend's answer. Returns the
     * URL fetched, if any.
     */
    method FetchDetails(materialId: int, backendUrl: string, authorized: bool, response: Result<Material>)
      returns (fetched: Option<string>)
      requires Valid() && isMaterialTagsModalOpen
      modifies this`materialForTags, this`tagsForCurrentMaterialInModal, this`availableTagsForModal,
               this`loadingMaterialTagsModal, this`materialTagsModalError
      ensures Valid() && isMaterialTagsModalOpen
      ensures backendUrl == "" ==> fetched.None? && unchanged(this)
      ensures backendUrl != "" && !authorized ==>
                fetched.None? && materialTagsModalError == Some(ErrTagsAuthRequired) &&
                materialForTags == old(materialForTags) &&
                tagsForCurrentMaterialInModal == old(tagsForCurrentMaterialInModal) &&
                availableTagsForModal == old(availableTagsForModal) &&
                loadingMaterialTagsModal == old(loadingMaterialTagsModal)
      ensures backendUrl != "" && authorized ==>
                fetched == Some(backendUrl + MaterialsPath + "/" + IntToString(materialId)) &&
                !loadingMaterialTagsModal
      ensures backendUrl != "" && authorized && response.Ok? ==>
                materialTagsModalError.None? && materialForTags == Some(response.value) &&
                tagsForCurrentMaterialInModal == response.value.tags.GetOr([]) &&
                availableTagsForModal == AvailableTags(tags, response.value.tags.GetOr([]))
      ensures backendUrl != "" && authorized && response.Err? ==>
                materialTagsModalError == Some(response.message) && materialForTags == old(materialForTags) &&
                tagsForCurrentMaterialInModal == [] && availableTagsForModal == []
    {
      fetched := None;
      if backendUrl == "" {
        return;
      }
      if !authorized {
        materialTagsModalError := Some(ErrTagsAuthRequired);
        return;
      }
      loadingMaterialTagsModal := true;
      materialTagsModalError := None;
      fetched := Some(backendUrl + MaterialsPath + "/" + IntToString(materialId));
      match response {
        case Ok(detailed) =>
          materialForTags := Some(detailed);
          var current := detailed.tags.GetOr([]);
          tagsForCurrentMaterialInModal := current;
          availableTagsForModal := AvailableTags(tags, current);
          AvailableTagsKeepOrder(tags, current);
        case Err(message) =>
          materialTagsModalError := Some(message);
          tagsForCurrentMaterialInModal := [];
          availableTagsForModal := [];
          assert IsSubsequence<Tag>([], tags);
      }
      loadingMaterialTagsModal := false;
    }

    /** `handleOpenMaterialTagsModal`: open the dialog on the material, then load its details. */
    method OpenTagsModal(material: Material, backendUrl: string, authorized: bool, response: Result<Material>)
      returns (fetched: Option<string>)
      requires Valid()
      modifies this`isMaterialTagsModalOpen, this`materialForTags, this`tagsForCurrentMaterialInModal,
               this`availableTagsForModal, this`loadingMaterialTagsModal, this`materialTagsModalError
      ensures Valid() && isMaterialTagsModalOpen
      ensures backendUrl == "" ==>
                fetched.None? && materialForTags == Some(material) &&
                tagsForCurrentMaterialInModal == old(tagsForCurrentMaterialInModal) &&
                availableTagsForModal == old(availableTagsForModal) &&
                materialTagsModalError == old(materialTagsModalError) &&
                loadingMaterialTagsModal == old(loadingMaterialTagsModal)
      ensures backendUrl != "" && !authorized ==>
                fetched.None? && materialTagsModalError == Some(ErrTagsAuthRequired) &&
                materialForTags == Some(material) &&
                tagsForCurrentMaterialInModal == old(tagsForCurrentMaterialInModal) &&
                availableTagsForModal == old(availableTagsForModal) &&
                loadingMaterialTagsModal == old(loadingMaterialTagsModal)
      ensures backendUrl != "" && authorized ==>
                fetched == Some(backendUrl + MaterialsPath + "/" + IntToString(material.id)) &&
                !loadingMaterialTagsModal
      ensures backendUrl != "" && authorized && response.Ok? ==>
                materialTagsModalError.None? && materialForTags == Some(response.value) &&
                tagsForCurrentMaterialInModal == response.value.tags.GetOr([]) &&
                availableTagsForModal == AvailableTags(tags, response.value.tags.GetOr([]))
      ensures backendUrl != "" && authorized && response.Err? ==>
                materialTagsModalError == Some(response.message) && materialForTags == Some(material) &&
                tagsForCurrentMaterialInModal == [] && availableTagsForModal == []
    {
      materialForTags := Some(material);
      isMaterialTagsModalOpen := true;
      fetched := FetchDetails(material.id, backendUrl, authorized, response);
    }

    /**
     * `handleAddTagToMaterial` (`attach`) and `handleRemoveTagFromMaterial`:
     * one POST to the material's tag URL and, when it succeeds, the dialog is
     * reloaded with `details`. Returns the URL posted to, if any.
     */
    method UpdateMaterialTag(tagId: int, attach: bool, backendUrl: string, authorized: bool,
                             response: Result<()>, details: Result<Material>)
      returns (posted: Option<string>)
      requires Valid()
      modifies this`materialForTags, this`tagsForCurrentMaterialInModal, this`availableTagsForModal,
               this`loadingMaterialTagsModal, this`materialTagsModalError
      ensures Valid()
      ensures old(materialForTags).None? || backendUrl == "" ==> posted.None? && unchanged(this)
      ensures old(materialForTags).Some? && backendUrl != "" && !authorized ==>
                posted.None? && materialTagsModalError == Some(ErrTagsAuthRequired) &&
                materialForTags == old(materialForTags) &&
                tagsForCurrentMaterialInModal == old(tagsForCurrentMaterialInModal) &&
                availableTagsForModal == old(availableTagsForModal) &&
                loadingMaterialTagsModal == old(loadingMaterialTagsModal)
      ensures old(materialForTags).Some? && backendUrl != "" && authorized ==>
                posted == Some(TagLinkUrl(backendUrl, old(materialForTags).value.id, tagId, attach)) &&
                !loadingMaterialTagsModal
      ensures old(materialForTags).Some? && backendUrl != "" && authorized && response.Ok? && details.Ok? ==>
                materialTagsModalError.None? && materialForTags == Some(details.value) &&
                tagsForCurrentMaterialInModal == details.value.tags.GetOr([]) &&
                availableTagsForModal == AvailableTags(tags, details.value.tags.GetOr([]))
      ensures old(materialForTags).Some? && backendUrl != "" && authorized && response.Ok? && details.Err? ==>
                materialTagsModalError == Some(details.message) && materialForTags == old(materialForTags) &&
                tagsForCurrentMaterialInModal == [] && availableTagsForModal == []
      ensures old(materialForTags).Some? && backendUrl != "" && authorized && response.Err? ==>
                materialTagsModalError == Some(response.message) && materialForTags == old(materialForTags) &&
                tagsForCurrentMaterialInModal == old(tagsForCurrentMaterialInModal) &&
                availableTagsForModal == old(availableTagsForModal)
    {
      posted := None;
      if materialForTags.None? || backendUrl == "" {
        return;
      }
      if !authorized {
        materialTagsModalError := Some(ErrTagsAuthRequired);
        return;
      }
      loadingMaterialTagsModal := true;
      materialTagsModalError := None;
      var materialId := materialForTags.value.id;
      posted := Some(TagLinkUrl(backendUrl, materialId, tagId, attach));
      match response {
        case Ok(_) =>
          var _ := FetchDetails(materialId, backendUrl, authorized, details);
        case Err(message) =>
          materialTagsModalError := Some(message);
      }
      loadingMaterialTagsModal := false;
    }

    /** `handleCloseMaterialTagsModal`: the dialog is closed and empty. */
    method CloseTagsModal()
      requires Valid()
      modifies this`isMaterialTagsModalOpen, this`materialForTags, this`tagsForCurrentMaterialInModal,
               this`availableTagsForModal, this`materialTagsModalError, this`loadingMaterialTagsModal
      ensures !isMaterialTagsModalOpen && materialForTags.None?
      ensures tagsForCurrentMaterialInModal == [] && availableTagsForModal == []
      ensures Valid()
      ensures materialTagsModalError.None? && !loadingMaterialTagsModal
    {
      isMaterialTagsModalOpen := false;
      materialForTags := None;
      tagsForCurrentMaterialInModal := [];
      availableTagsForModal := [];
      materialTagsModalError := None;
      loadingMaterialTagsModal := false;
      assert IsSubsequence<Tag>([], tags);
    }
  }
}
