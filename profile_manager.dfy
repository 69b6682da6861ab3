/**
 * The profile manager: a single in-progress profile and the operations that
 * fill it from the edit form, import it from a JSON document, check it for
 * completeness, summarise it and turn it into the record that is stored.
 * The clock is an input: every operation that stamps a time takes `now`.
 */
module ProfileManagement {
  import opened Wrappers
  import opened ProfileTypes
  import opened JsStrings
  import opened ProfileSpec

  /** The values submitted by the edit form. */
  datatype FormData = FormData(
    profileName: string,
    profileDescription: string,
    toneOfVoice: string,
    criterion1: string,
    criterion2: string,
    criterion3: string,
    stepValue: int,
    categoryTags: CategoryTags,
    rssFeeds: seq<RssFeed>)

  /** The `categoryTags` object of an imported document: each key may be missing. */
  datatype JsonTags = JsonTags(
    inTheNews: Option<bool>,
    transHealth: Option<bool>,
    genderSenseLatest: Option<bool>,
    transitionCoaching: Option<bool>,
    communityHighlights: Option<bool>,
    transRights: Option<bool>)

  /** The `metadata` object of an imported document; its other keys are never read. */
  datatype JsonMetadata = JsonMetadata(createdAt: Option<string>)

  /**
   * An imported document. `None` stands for a key that is absent, and for
   * `evaluationCriteria` and `rssFeeds` also for a value that is not an array.
   */
  datatype JsonProfile = JsonProfile(
    profileName: Option<string>,
    profileDescription: Option<string>,
    toneOfVoice: Option<string>,
    evaluationCriteria: Option<seq<string>>,
    summaryLength: Option<int>,
    categoryTags: Option<JsonTags>,
    rssFeeds: Option<seq<RssFeed>>,
    metadata: Option<JsonMetadata>)

  /** The derived view shown beside the form. */
  datatype ProfileSummary = ProfileSummary(
    name: string,
    criteriaCount: nat,
    activeFeedsCount: nat,
    selectedCategoriesCount: nat,
    isComplete: bool)

  const DefaultSummaryLength := 150
  const ProfileVersion := "1.0"

  /** What every state of the manager satisfies: no feed carries a selection and the version is current. */
  predicate ManagerInvariant(p: ProfileData) {
    NoFeedSelected(p.rssFeeds) && p.metadata.version == ProfileVersion
  }

  /** The profile a new manager starts from, stamped with `now`. */
  function CreateEmptyProfile(now: string): (r: ProfileData)
    ensures r.profileName == "" && r.profileDescription == "" && r.toneOfVoice == ""
    ensures r.evaluationCriteria == [] && r.rssFeeds == []
    ensures r.summaryLength == DefaultSummaryLength
    ensures forall k :: !Tag(r.categoryTags, k)
    ensures r.metadata.createdAt == r.metadata.updatedAt == now
    ensures ManagerInvariant(r)
    // an empty profile fails every one of the five checks
    ensures ValidationErrors(r) ==
      [NameRequired, ToneRequired, CriteriaRequired, ActiveFeedRequired, CategoryRequired]
  {
    var tags := CategoryTags(false, false, false, false, false, false);
    var r := ProfileData("", "", "", [], DefaultSummaryLength, tags, [],
                         Metadata(now, now, ProfileVersion));
    assert IsBlank("");
    SelectedCategories(tags);
    r
  }

  /**
   * The profile after the form has been applied: every mutable field is
   * replaced, whatever it held before; only `createdAt` and `version` survive.
   */
  function ApplyForm(p: ProfileData, form: FormData, now: string): (r: ProfileData)
    ensures r.profileName == form.profileName
    ensures r.profileDescription == form.profileDescription
    ensures r.toneOfVoice == form.toneOfVoice
    ensures r.summaryLength == form.stepValue
    ensures r.evaluationCriteria == Kept(form.criterion1) + Kept(form.criterion2) + Kept(form.criterion3)
    ensures |r.evaluationCriteria| <= 3
    ensures forall i :: 0 <= i < |r.evaluationCriteria| ==> !IsBlank(r.evaluationCriteria[i])
    ensures r.categoryTags == form.categoryTags
    ensures |r.rssFeeds| == |form.rssFeeds| && NoFeedSelected(r.rssFeeds)
    ensures forall i :: 0 <= i < |r.rssFeeds| ==> SameSource(r.rssFeeds[i], form.rssFeeds[i])
    ensures r.metadata.updatedAt == now
    ensures r.metadata.createdAt == p.metadata.createdAt && r.metadata.version == p.metadata.version
  {
    FormCriteria(form.criterion1, form.criterion2, form.criterion3);
    p.(profileName := form.profileName,
       profileDescription := form.profileDescription,
       toneOfVoice := form.toneOfVoice,
       summaryLength := form.stepValue,
       evaluationCriteria := KeepNonBlank([form.criterion1, form.criterion2, form.criterion3]),
       categoryTags := form.categoryTags,
       rssFeeds := ClearSelected(form.rssFeeds),
       metadata := p.metadata.(updatedAt := now))
  }

  /** JavaScript's `s || d` on a string: an absent or empty string gives way to `d`. */
  function StringOr(s: Option<string>, d: string): (r: string)
    ensures s.Some? && s.value != "" ==> r == s.value
    ensures s.None? || s.value == "" ==> r == d
    ensures r == "" ==> d == ""
  {
    if s.Some? && s.value != "" then s.value else d
  }

  /** JavaScript's `n || d` on a number: an absent or zero number gives way to `d`. */
  function NumberOr(n: Option<int>, d: int): (r: int)
    ensures n.Some? && n.value != 0 ==> r == n.value
    ensures n.None? || n.value == 0 ==> r == d
    ensures d != 0 ==> r != 0
  {
    if n.Some? && n.value != 0 then n.value else d
  }

  function Supplied(j: JsonTags, k: TagKey): Option<bool> {
    match k
    case InTheNews => j.inTheNews
    case TransHealth => j.transHealth
    case GenderSenseLatest => j.genderSenseLatest
    case TransitionCoaching => j.transitionCoaching
    case CommunityHighlights => j.communityHighlights
    case TransRights => j.transRights
  }

  /**
   * `{...current, ...(supplied || {})}`: each key takes the supplied value
   * when there is one and keeps its current value otherwise.
   */
  function MergeTags(current: CategoryTags, supplied: Option<JsonTags>): (r: CategoryTags)
    ensures supplied.None? ==> r == current
  {
    match supplied
    case None => current
    case Some(j) =>
      CategoryTags(
        j.inTheNews.GetOr(current.inTheNews),
        j.transHealth.GetOr(current.transHealth),
        j.genderSenseLatest.GetOr(current.genderSenseLatest),
        j.transitionCoaching.GetOr(current.transitionCoaching),
        j.communityHighlights.GetOr(current.communityHighlights),
        j.transRights.GetOr(current.transRights))
  }

  /** Key by key, a merged tag is the supplied value if the key is present and the current value if not. */
  lemma MergeTagsByKey(current: CategoryTags, supplied: JsonTags, k: TagKey)
    ensures Tag(MergeTags(current, Some(supplied)), k) == Supplied(supplied, k).GetOr(Tag(current, k))
  {
    match k
    case InTheNews =>
    case TransHealth =>
    case GenderSenseLatest =>
    case TransitionCoaching =>
    case CommunityHighlights =>
    case TransRights =>
  }

  /** The `createdAt` an import keeps: the document's if it is there and non-empty, else the current one. */
  /** `metadata?.createdAt || current`: a supplied non-empty creation time wins, anything else keeps `current`. */
  function ImportedCreatedAt(current: string, m: Option<JsonMetadata>): (r: string)
    ensures m.Some? && m.value.createdAt.Some? && m.value.createdAt.value != "" ==> r == m.value.createdAt.value
    ensures !(m.Some? && m.value.createdAt.Some? && m.value.createdAt.value != "") ==> r == current
  {
    if m.Some? then StringOr(m.value.createdAt, current) else current
  }

  /** The profile an import builds from the current profile `p` and document `json`. */
  function LoadedProfile(p: ProfileData, json: JsonProfile, now: string): (r: ProfileData)
    ensures r.profileName == StringOr(json.profileName, "")
    ensures r.profileDescription == StringOr(json.profileDescription, "")
    ensures r.toneOfVoice == StringOr(json.toneOfVoice, "")
    ensures r.evaluationCriteria == json.evaluationCriteria.GetOr([])
    ensures r.summaryLength != 0
    ensures r.summaryLength == NumberOr(json.summaryLength, DefaultSummaryLength)
    ensures r.categoryTags == MergeTags(p.categoryTags, json.categoryTags)
    ensures NoFeedSelected(r.rssFeeds)
    ensures json.rssFeeds.None? ==> r.rssFeeds == []
    ensures json.rssFeeds.Some? ==>
              && |r.rssFeeds| == |json.rssFeeds.value|
              && forall i :: 0 <= i < |r.rssFeeds| ==> SameSource(r.rssFeeds[i], json.rssFeeds.value[i])
    ensures r.metadata == Metadata(ImportedCreatedAt(p.metadata.createdAt, json.metadata), now, ProfileVersion)
    ensures ManagerInvariant(r)
  {
    ProfileData(
      StringOr(json.profileName, ""),
      StringOr(json.profileDescription, ""),
      StringOr(json.toneOfVoice, ""),
      json.evaluationCriteria.GetOr([]),
      NumberOr(json.summaryLength, DefaultSummaryLength),
      MergeTags(p.categoryTags, json.categoryTags),
      if json.rssFeeds.Some? then ClearSelected(json.rssFeeds.value) else [],
      Metadata(ImportedCreatedAt(p.metadata.createdAt, json.metadata), now, ProfileVersion))
  }

  /** The structure `exportAsJSON` serialises: every field of the profile, with nothing left out. */
  function ExportedJson(p: ProfileData): (j: JsonProfile)
    ensures j.profileName == Some(p.profileName) && j.profileDescription == Some(p.profileDescription)
    ensures j.toneOfVoice == Some(p.toneOfVoice) && j.evaluationCriteria == Some(p.evaluationCriteria)
    ensures j.summaryLength == Some(p.summaryLength) && j.rssFeeds == Some(p.rssFeeds)
    ensures j.categoryTags.Some? && forall k :: Supplied(j.categoryTags.value, k) == Some(Tag(p.categoryTags, k))
    ensures j.metadata == Some(JsonMetadata(Some(p.metadata.createdAt)))
  {
    var t := p.categoryTags;
    JsonProfile(
      Some(p.profileName), Some(p.profileDescription), Some(p.toneOfVoice),
      Some(p.evaluationCriteria), Some(p.summaryLength),
      Some(JsonTags(Some(t.inTheNews), Some(t.transHealth), Some(t.genderSenseLatest),
                    Some(t.transitionCoaching), Some(t.communityHighlights), Some(t.transRights))),
      Some(p.rssFeeds),
      Some(JsonMetadata(Some(p.metadata.createdAt))))
  }

  class ProfileManager {
    var profileData: ProfileData

    ghost predicate Valid()
      reads this
    {
      ManagerInvariant(profileData)
    }

    constructor (now: string)
      ensures Valid()
      ensures profileData == CreateEmptyProfile(now)
    {
      profileData := CreateEmptyProfile(now);
    }

    /** Overwrites every mutable field from the form, one field at a time. */
    method UpdateFromFormData(form: FormData, now: string)
      requires Valid()
      modifies this
      ensures Valid()
      ensures profileData == ApplyForm(old(profileData), form, now)
    {
      profileData := profileData.(profileName := form.profileName);
      profileData := profileData.(profileDescription := form.profileDescription);
      profileData := profileData.(toneOfVoice := form.toneOfVoice);
      profileData := profileData.(summaryLength := form.stepValue);
      profileData := profileData.(evaluationCriteria :=
        KeepNonBlank([form.criterion1, form.criterion2, form.criterion3]));
      profileData := profileData.(categoryTags := form.categoryTags);
      profileData := profileData.(rssFeeds := ClearSelected(form.rssFeeds));
      profileData := profileData.(metadata := profileData.metadata.(updatedAt := now));
    }

    /** A copy of the current profile. */
    function GetProfile(): (r: ProfileData)
      reads this
      ensures r == profileData
    {
      profileData
    }

    /**
     * Runs all five checks, none stopping the others, and collects the
     * message of each one that fails.
     */
    method ValidateForDatabase() returns (isValid: bool, errors: seq<string>)
      ensures errors == ValidationErrors(profileData)
      ensures isValid <==> errors == []
      ensures isValid <==> IsComplete(profileData)
    {
      ghost var p := profileData;
      errors := [];
      // `!name.trim()`: blank exactly when trimming leaves nothing (TrimEmptyIffBlank)
      if IsBlank(profileData.profileName) {
        errors := errors + [NameRequired];
      }
      ghost var e1 := errors;
      PushReport(p, NameCheck, [], e1, IsBlank(profileData.profileName));
      if profileData.toneOfVoice == "" {
        errors := errors + [ToneRequired];
      }
      ghost var e2 := errors;
      PushReport(p, ToneCheck, e1, e2, profileData.toneOfVoice == "");
      if |profileData.evaluationCriteria| == 0 {
        errors := errors + [CriteriaRequired];
      }
      ghost var e3 := errors;
      PushReport(p, CriteriaCheck, e2, e3, |profileData.evaluationCriteria| == 0);
      var activeFeeds := CountActive(profileData.rssFeeds);
      if activeFeeds == 0 {
        errors := errors + [ActiveFeedRequired];
      }
      ghost var e4 := errors;
      PushReport(p, FeedCheck, e3, e4, activeFeeds == 0);
      var selectedCategories := CountTrue(TagValues(profileData.categoryTags));
      if selectedCategories == 0 {
        errors := errors + [CategoryRequired];
      }
      PushReport(p, CategoryCheck, e4, errors, selectedCategories == 0);
      ReportsInOrder(p, e1, e2, e3, e4, errors);
      isValid := |errors| == 0;
      NoErrorsIffComplete(profileData);
    }

    /** The record to insert: the profile nested whole, its name and description copied to the top. */
    function PrepareDatabaseProfile(): (r: DatabaseProfile)
      reads this
      ensures r.isActive
      ensures r.profileJson == GetProfile()
      ensures r.profileName == r.profileJson.profileName
      ensures r.profileDescription == r.profileJson.profileDescription
      ensures Valid() ==> NoFeedSelected(r.profileJson.rssFeeds)
    {
      DatabaseProfile(profileData.profileName, profileData.profileDescription, true, GetProfile())
    }

    /** Replaces the profile with the one built leniently from an imported document. */
    method LoadFromJSON(json: JsonProfile, now: string)
      modifies this
      ensures Valid()
      ensures profileData == LoadedProfile(old(profileData), json, now)
    {
      var loadedProfile := LoadedProfile(profileData, json, now);
      profileData := loadedProfile;
    }

    /** Counts and the completeness flag, recomputed from the current profile. */
    function GetProfileSummary(): (r: ProfileSummary)
      reads this
      ensures r.name == profileData.profileName
      ensures r.criteriaCount == |profileData.evaluationCriteria|
      ensures r.activeFeedsCount == CountActive(profileData.rssFeeds)
      ensures r.selectedCategoriesCount == CountTrue(TagValues(profileData.categoryTags))
      ensures r.activeFeedsCount <= |profileData.rssFeeds|
      ensures r.activeFeedsCount == 0 <==> forall i :: 0 <= i < |profileData.rssFeeds| ==> profileData.rssFeeds[i].status != Active
      ensures r.selectedCategoriesCount <= 6
      ensures r.selectedCategoriesCount == 0 <==> forall k :: !Tag(profileData.categoryTags, k)
      ensures r.isComplete <==> ValidationErrors(profileData) == []
      ensures r.isComplete <==> IsComplete(profileData)
      ensures r.isComplete ==> r.criteriaCount >= 1 && r.activeFeedsCount >= 1 && r.selectedCategoriesCount >= 1
    {
      var selectedCategories := CountTrue(TagValues(profileData.categoryTags));
      var activeFeeds := CountActive(profileData.rssFeeds);
      var isValid := ValidationErrors(profileData) == [];
      NoErrorsIffComplete(profileData);
      SelectedCategories(profileData.categoryTags);
      ProfileSummary(profileData.profileName, |profileData.evaluationCriteria|,
                     activeFeeds, selectedCategories, isValid)
    }
  }
}
