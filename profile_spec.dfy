/**
 * The pieces the profile manager's operations are built from, each stated
 * on its own: keeping the non-blank criteria, clearing the feeds' selection
 * flags, counting active feeds and true tags, and the five completeness
 * checks with the message each one reports.
 */
module ProfileSpec {
  import opened ProfileTypes
  import opened JsStrings

  // ---------------------------------------------------------------- criteria

  /** One criterion as the filter keeps it: untrimmed if it is not blank, dropped otherwise. */
  function Kept(c: string): seq<string> {
    if IsBlank(c) then [] else [c]
  }

  /** `criteria.filter(c => c.trim() !== '')`: the non-blank entries, in order, untrimmed. */
  function KeepNonBlank(s: seq<string>): (r: seq<string>)
    ensures |r| <= |s|
    ensures forall i :: 0 <= i < |r| ==> !IsBlank(r[i])
    ensures forall x :: x in r ==> x in s
  {
    if s == [] then [] else Kept(s[0]) + KeepNonBlank(s[1..])
  }

  /** Filtering distributes over concatenation, so the relative order of the kept entries is that of the input. */
  lemma {:induction false} KeepNonBlankAppend(a: seq<string>, b: seq<string>)
    ensures KeepNonBlank(a + b) == KeepNonBlank(a) + KeepNonBlank(b)
  {
    if a == [] {
      assert a + b == b;
    } else {
      assert (a + b)[1..] == a[1..] + b;
      KeepNonBlankAppend(a[1..], b);
    }
  }

  /** Nothing non-blank is lost. */
  lemma {:induction false} KeepNonBlankKeepsNonBlank(s: seq<string>, x: string)
    requires x in s && !IsBlank(x)
    ensures x in KeepNonBlank(s)
  {
    if s[0] != x {
      KeepNonBlankKeepsNonBlank(s[1..], x);
    }
  }

  /** A list with no blank entry passes through unchanged; hence filtering is idempotent. */
  lemma {:induction false} KeepNonBlankIdentity(s: seq<string>)
    requires forall i :: 0 <= i < |s| ==> !IsBlank(s[i])
    ensures KeepNonBlank(s) == s
  {
    if s != [] {
      KeepNonBlankIdentity(s[1..]);
    }
  }

  /** A one-entry list keeps its entry exactly when it is not blank. */
  lemma KeepNonBlankSingle(c: string)
    ensures KeepNonBlank([c]) == Kept(c)
  {
    assert [c][1..] == [];
  }

  /** The three form criteria: exactly the non-blank ones among them, in the order given. */
  lemma FormCriteria(c1: string, c2: string, c3: string)
    ensures KeepNonBlank([c1, c2, c3]) == Kept(c1) + Kept(c2) + Kept(c3)
  {
    var a, b, c := [c1], [c2], [c3];
    assert [c1, c2, c3] == a + (b + c);
    KeepNonBlankAppend(b, c);
    KeepNonBlankAppend(a, b + c);
    KeepNonBlankSingle(c1);
    KeepNonBlankSingle(c2);
    KeepNonBlankSingle(c3);
    var k1, k2, k3 := Kept(c1), Kept(c2), Kept(c3);
    assert k1 + (k2 + k3) == k1 + k2 + k3;
  }

  // ------------------------------------------------------------------- feeds

  /** Two feeds that name the same source: everything but the selection flag agrees. */
  predicate SameSource(f: RssFeed, g: RssFeed) {
    f.id == g.id && f.name == g.name && f.url == g.url && f.status == g.status
  }

  predicate NoFeedSelected(feeds: seq<RssFeed>) {
    forall i :: 0 <= i < |feeds| ==> !feeds[i].selected
  }

  /** `feeds.map(feed => ({...feed, selected: false}))`. */
  function ClearSelected(feeds: seq<RssFeed>): (r: seq<RssFeed>)
    ensures |r| == |feeds| && NoFeedSelected(r)
    ensures forall i :: 0 <= i < |r| ==> SameSource(r[i], feeds[i])
  {
    seq(|feeds|, i requires 0 <= i < |feeds| => feeds[i].(selected := false))
  }

  /** Feeds that already carry no selection are left as they are. */
  lemma ClearSelectedIdentity(feeds: seq<RssFeed>)
    requires NoFeedSelected(feeds)
    ensures ClearSelected(feeds) == feeds
  {
    var r := ClearSelected(feeds);
    assert forall i :: 0 <= i < |r| ==> r[i] == feeds[i];
  }

  /** `feeds.filter(feed => feed.status === 'active').length`. */
  function CountActive(feeds: seq<RssFeed>): (n: nat)
    ensures n <= |feeds|
    ensures n == 0 <==> forall i :: 0 <= i < |feeds| ==> feeds[i].status != Active
  {
    if feeds == [] then 0
    else (if feeds[0].status == Active then 1 else 0) + CountActive(feeds[1..])
  }

  /** Clearing the selection flags does not change which feeds are active. */
  lemma {:induction false} ClearSelectedKeepsActive(feeds: seq<RssFeed>)
    ensures CountActive(ClearSelected(feeds)) == CountActive(feeds)
  {
    if feeds != [] {
      var r := ClearSelected(feeds);
      assert r[1..] == ClearSelected(feeds[1..]);
      ClearSelectedKeepsActive(feeds[1..]);
    }
  }

  // -------------------------------------------------------------------- tags

  /** The keys of a `CategoryTags` object. */
  datatype TagKey = InTheNews | TransHealth | GenderSenseLatest
                  | TransitionCoaching | CommunityHighlights | TransRights

  function Tag(t: CategoryTags, k: TagKey): bool {
    match k
    case InTheNews => t.inTheNews
    case TransHealth => t.transHealth
    case GenderSenseLatest => t.genderSenseLatest
    case TransitionCoaching => t.transitionCoaching
    case CommunityHighlights => t.communityHighlights
    case TransRights => t.transRights
  }

  /** `Object.values(tags)`: the six flags in declaration order. */
  function TagValues(t: CategoryTags): (r: seq<bool>)
    ensures |r| == 6
  {
    [t.inTheNews, t.transHealth, t.genderSenseLatest,
     t.transitionCoaching, t.communityHighlights, t.transRights]
  }

  /** `bs.filter(Boolean).length`. */
  function CountTrue(bs: seq<bool>): (n: nat)
    ensures n <= |bs|
    ensures n == 0 <==> forall i :: 0 <= i < |bs| ==> !bs[i]
  {
    if bs == [] then 0 else (if bs[0] then 1 else 0) + CountTrue(bs[1..])
  }

  /** The number of selected categories is between zero and six, and zero exactly when no key is set. */
  lemma SelectedCategories(t: CategoryTags)
    ensures CountTrue(TagValues(t)) <= 6
    ensures CountTrue(TagValues(t)) == 0 <==> forall k :: !Tag(t, k)
  {
    var v := TagValues(t);
    if CountTrue(v) == 0 {
      forall k ensures !Tag(t, k) {
        match k
        case InTheNews => assert !v[0];
        case TransHealth => assert !v[1];
        case GenderSenseLatest => assert !v[2];
        case TransitionCoaching => assert !v[3];
        case CommunityHighlights => assert !v[4];
        case TransRights => assert !v[5];
      }
    } else {
      var i :| 0 <= i < 6 && v[i];
      var k := [InTheNews, TransHealth, GenderSenseLatest,
                TransitionCoaching, CommunityHighlights, TransRights][i];
      assert Tag(t, k);
    }
  }

  // -------------------------------------------------------------- validation

  /** The five completeness checks, in the order the validator runs them. */
  datatype Check = NameCheck | ToneCheck | CriteriaCheck | FeedCheck | CategoryCheck

  const NameRequired := "Profile name is required"
  const ToneRequired := "Tone of voice must be selected"
  const CriteriaRequired := "At least one evaluation criteria must be selected"
  const ActiveFeedRequired := "At least one RSS feed must be active"
  const CategoryRequired := "At least one category tag must be selected"

  function Message(c: Check): string {
    match c
    case NameCheck => NameRequired
    case ToneCheck => ToneRequired
    case CriteriaCheck => CriteriaRequired
    case FeedCheck => ActiveFeedRequired
    case CategoryCheck => CategoryRequired
  }

  /**
   * Whether a check passes, written with the source's own tests: the name is
   * trimmed, the tone is not (a whitespace-only tone passes), and the last two
   * compare filtered counts with zero.
   */
  predicate Passes(p: ProfileData, c: Check) {
    match c
    case NameCheck => !IsBlank(p.profileName)
    case ToneCheck => p.toneOfVoice != ""
    case CriteriaCheck => |p.evaluationCriteria| != 0
    case FeedCheck => CountActive(p.rssFeeds) != 0
    case CategoryCheck => CountTrue(TagValues(p.categoryTags)) != 0
  }

  /** The report of one check: its message if it fails, nothing if it passes. */
  function Report(p: ProfileData, c: Check): seq<string> {
    if Passes(p, c) then [] else [Message(c)]
  }

  /** What the validator reports for `p`: one message per failed check, in check order. */
  function ValidationErrors(p: ProfileData): (errs: seq<string>)
    ensures |errs| <= 5
  {
    Report(p, NameCheck) + Report(p, ToneCheck) + Report(p, CriteriaCheck)
      + Report(p, FeedCheck) + Report(p, CategoryCheck)
  }

  /** One `errors.push` guarded by the failure of check `c` appends that check's report. */
  lemma PushReport(p: ProfileData, c: Check, before: seq<string>, after: seq<string>, failed: bool)
    requires failed == !Passes(p, c)
    requires after == if failed then before + [Message(c)] else before
    ensures after == before + Report(p, c)
  {
  }

  /** Appending the five reports one after another, in check order, gives the validator's result. */
  lemma ReportsInOrder(p: ProfileData, e1: seq<string>, e2: seq<string>, e3: seq<string>,
                       e4: seq<string>, e5: seq<string>)
    requires e1 == Report(p, NameCheck)
    requires e2 == e1 + Report(p, ToneCheck)
    requires e3 == e2 + Report(p, CriteriaCheck)
    requires e4 == e3 + Report(p, FeedCheck)
    requires e5 == e4 + Report(p, CategoryCheck)
    ensures e5 == ValidationErrors(p)
  {
  }

  /** No two checks share a message (their lengths already differ). */
  lemma MessagesDistinct(c: Check, d: Check)
    requires c != d
    ensures Message(c) != Message(d)
  {
    assert |Message(c)| != |Message(d)|;
  }

  /**
   * Completeness stated directly, independently of the counting the
   * code does: a non-blank name, a tone, a criterion, some active feed and
   * some set category.
   */
  predicate IsComplete(p: ProfileData) {
    && !IsBlank(p.profileName)
    && p.toneOfVoice != ""
    && |p.evaluationCriteria| > 0
    && (exists i :: 0 <= i < |p.rssFeeds| && p.rssFeeds[i].status == Active)
    && (exists k :: Tag(p.categoryTags, k))
  }

  /** A failed check contributes its message and a passed one does not. */
  lemma ReportedIffFailed(p: ProfileData, c: Check)
    ensures Message(c) in ValidationErrors(p) <==> !Passes(p, c)
  {
    forall d | d != c ensures Message(c) !in Report(p, d) {
      MessagesDistinct(c, d);
    }
  }

  /** The validator reports nothing exactly when the profile is complete. */
  lemma NoErrorsIffComplete(p: ProfileData)
    ensures ValidationErrors(p) == [] <==> IsComplete(p)
  {
    SelectedCategories(p.categoryTags);
    ReportedIffFailed(p, NameCheck);
    ReportedIffFailed(p, ToneCheck);
    ReportedIffFailed(p, CriteriaCheck);
    ReportedIffFailed(p, FeedCheck);
    ReportedIffFailed(p, CategoryCheck);
  }
}
