/**
 * Properties that relate several operations of the profile manager: the
 * export/import round trip and where it is not exact, what an update keeps
 * from the state before it, and the complete save scenario.
 */
module ProfileProperties {
  import opened Wrappers
  import opened ProfileTypes
  import opened JsStrings
  import opened ProfileSpec
  import opened ProfileManagement

  /**
   * Importing an exported profile gives it back with only `updatedAt`
   * restamped, as long as the profile holds the manager's invariant, has a
   * non-zero summary length and a non-empty creation time. The profile the
   * import starts from does not matter.
   */
  lemma ExportImportRoundTrip(current: ProfileData, p: ProfileData, now: string)
    requires ManagerInvariant(p)
    requires p.summaryLength != 0 && p.metadata.createdAt != ""
    ensures LoadedProfile(current, ExportedJson(p), now) == p.(metadata := p.metadata.(updatedAt := now))
  {
    ClearSelectedIdentity(p.rssFeeds);
    var r := LoadedProfile(current, ExportedJson(p), now);
    assert r.profileName == p.profileName;
    assert r.profileDescription == p.profileDescription;
    assert r.toneOfVoice == p.toneOfVoice;
    assert r.categoryTags == p.categoryTags by {
      assert Tag(r.categoryTags, InTheNews) == Tag(p.categoryTags, InTheNews);
      assert Tag(r.categoryTags, TransHealth) == Tag(p.categoryTags, TransHealth);
      assert Tag(r.categoryTags, GenderSenseLatest) == Tag(p.categoryTags, GenderSenseLatest);
      assert Tag(r.categoryTags, TransitionCoaching) == Tag(p.categoryTags, TransitionCoaching);
      assert Tag(r.categoryTags, CommunityHighlights) == Tag(p.categoryTags, CommunityHighlights);
      assert Tag(r.categoryTags, TransRights) == Tag(p.categoryTags, TransRights);
    }
  }

  /** A summary length of zero does not survive the round trip: the import reads it as missing. */
  lemma ZeroSummaryLengthNotPreserved(current: ProfileData, p: ProfileData, now: string)
    requires p.summaryLength == 0
    ensures LoadedProfile(current, ExportedJson(p), now).summaryLength == DefaultSummaryLength
  {
  }

  /** An empty creation time does not survive the round trip either: the current one is kept instead. */
  lemma EmptyCreatedAtNotPreserved(current: ProfileData, p: ProfileData, now: string)
    requires p.metadata.createdAt == ""
    ensures LoadedProfile(current, ExportedJson(p), now).metadata.createdAt == current.metadata.createdAt
  {
  }

  /** An update has no partial mode: beyond the metadata it carries over, the prior profile is irrelevant. */
  lemma ApplyFormForgetsPrior(p: ProfileData, q: ProfileData, form: FormData, now: string)
    requires p.metadata.createdAt == q.metadata.createdAt && p.metadata.version == q.metadata.version
    ensures ApplyForm(p, form, now) == ApplyForm(q, form, now)
  {
  }

  /** Submitting the same form twice is the same as submitting it once, at the later time. */
  lemma ApplyFormIdempotent(p: ProfileData, form: FormData, t1: string, t2: string)
    ensures ApplyForm(ApplyForm(p, form, t1), form, t2) == ApplyForm(p, form, t2)
  {
  }

  /** After an update, the criteria check passes exactly when some form criterion is not blank. */
  lemma UpdatedCriteriaCheck(p: ProfileData, form: FormData, now: string)
    ensures Passes(ApplyForm(p, form, now), CriteriaCheck) <==>
              !IsBlank(form.criterion1) || !IsBlank(form.criterion2) || !IsBlank(form.criterion3)
  {
  }

  /**
   * After an update, the feed check passes exactly when some submitted feed
   * is active: clearing the selection flags never hides an active feed.
   */
  lemma UpdatedFeedCheck(p: ProfileData, form: FormData, now: string)
    ensures Passes(ApplyForm(p, form, now), FeedCheck) <==>
              exists i :: 0 <= i < |form.rssFeeds| && form.rssFeeds[i].status == Active
  {
    ClearSelectedKeepsActive(form.rssFeeds);
  }

  /** After an update, the category check passes exactly when the form sets some category. */
  lemma UpdatedCategoryCheck(p: ProfileData, form: FormData, now: string)
    ensures Passes(ApplyForm(p, form, now), CategoryCheck) <==> exists k :: Tag(form.categoryTags, k)
  {
    SelectedCategories(form.categoryTags);
  }

  /** Two problems in one profile are both reported, in check order. */
  lemma AllProblemsReported(p: ProfileData)
    requires IsBlank(p.profileName) && CountActive(p.rssFeeds) == 0
    requires p.toneOfVoice != "" && |p.evaluationCriteria| > 0 && CountTrue(TagValues(p.categoryTags)) > 0
    ensures ValidationErrors(p) == [NameRequired, ActiveFeedRequired]
  {
  }

  /** The form of the save scenario: one criterion, one category, one active feed that the user had selected. */
  function DigestForm(): FormData {
    FormData("Digest A", "", "neutral", "accuracy", "", "", 150,
             CategoryTags(true, false, false, false, false, false),
             [RssFeed(1, "", "", Active, true)])
  }

  /** The profile the save scenario produces, written out. */
  function DigestProfile(name: string, created: string, now: string): ProfileData {
    ProfileData(name, "", "neutral", ["accuracy"], 150,
                CategoryTags(true, false, false, false, false, false),
                [RssFeed(1, "", "", Active, false)],
                Metadata(created, now, ProfileVersion))
  }

  /** Applying the scenario's form to a new manager's profile, with any name: the selection is cleared. */
  lemma DigestApplied(name: string, created: string, now: string)
    ensures ApplyForm(CreateEmptyProfile(created), DigestForm().(profileName := name), now)
            == DigestProfile(name, created, now)
  {
    assert !IsBlank("accuracy") by {
      assert !IsWhitespace("accuracy"[0]);
    }
    assert IsBlank("");
  }

  /** Every check but the name check passes on the scenario's profile. */
  lemma DigestChecks(name: string, created: string, now: string)
    ensures var r := DigestProfile(name, created, now);
            && Report(r, ToneCheck) == [] && Report(r, CriteriaCheck) == []
            && Report(r, FeedCheck) == [] && Report(r, CategoryCheck) == []
  {
    var r := DigestProfile(name, created, now);
    assert CountActive(r.rssFeeds) != 0 by {
      assert r.rssFeeds[0].status == Active;
    }
    assert CountTrue(TagValues(r.categoryTags)) != 0 by {
      assert TagValues(r.categoryTags)[0];
    }
  }

  /**
   * Saving "Digest A": applying the form to a new manager's profile gives a
   * complete profile whose only criterion is "accuracy" and whose feed is no
   * longer selected.
   */
  lemma DigestScenario(created: string, now: string)
    ensures var r := ApplyForm(CreateEmptyProfile(created), DigestForm(), now);
            && ValidationErrors(r) == []
            && r.evaluationCriteria == ["accuracy"]
            && r.rssFeeds == [RssFeed(1, "", "", Active, false)]
            && r.metadata == Metadata(created, now, ProfileVersion)
  {
    assert DigestForm().(profileName := "Digest A") == DigestForm();
    DigestApplied("Digest A", created, now);
    DigestChecks("Digest A", created, now);
    assert !IsBlank("Digest A") by {
      assert !IsWhitespace("Digest A"[0]);
    }
  }

  /** The same form with a whitespace-only name is rejected with the name message alone. */
  lemma BlankNameScenario(created: string, now: string)
    ensures ValidationErrors(ApplyForm(CreateEmptyProfile(created), DigestForm().(profileName := " "), now))
            == [NameRequired]
  {
    DigestApplied(" ", created, now);
    DigestChecks(" ", created, now);
    assert IsBlank(" ") by {
      assert IsWhitespace(" "[0]);
    }
  }
}
