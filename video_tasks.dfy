/**
 * The background tasks of flicks.videos.tasks. `process_video` pushes a
 * video's metadata to the video platform, marks the video processed and
 * emails the moderators; `process_deletion` deletes a video on the platform
 * and sends the owner a rejection notice. Every call to the platform, the
 * store or the mailer is recorded in a trace; whether a call succeeds is
 * decided by an `accepts` parameter, and the first call that fails raises
 * and ends the task.
 */
module VideoTasks {
  import opened Wrappers
  import opened Moderation

  /** A row of the Video table; `owner` is the user row it refers to. */
  datatype Video = Video(id: int, vimeoId: int, title: string, description: string,
                         owner: User, processed: bool)

  /** A call made to the video platform, the store or the mailer. */
  datatype Call =
    | SetTitle(vimeoId: int, title: string)
    | SetDescription(vimeoId: int, text: string)
    | AddToChannel(vimeoId: int, channelId: int)
    | AddTags(vimeoId: int, tags: seq<string>)
    | SaveVideo(video: Video)
    | SendMail(subject: string, body: string, sender: string, recipients: seq<string>)
    | DeleteVideo(vimeoId: int)
    | SendRejectionEmail(userId: int)

  /** How a task ends: it ran to the end, found no video (and did nothing), or raised at a failing call. */
  datatype Outcome = Completed | NotFound | Raised(failed: Call)

  /** The static configuration the tasks read. */
  datatype Settings = Settings(regionChannels: map<string, int>, defaultFromEmail: string)

  const ModerationTemplate: string := "videos/2013/moderation_email.html"

  /** The description sent to the platform: title, " by ", the owner's display name, a blank line, the description. */
  function ComposedDescription(v: Video): (r: string)
    ensures |r| == |v.title| + |v.owner.profile.displayName| + |v.description| + 6
    ensures r[..|v.title|] == v.title && r[|r| - |v.description|..] == v.description
    ensures r[|v.title|..|v.title| + 4] == " by "
    ensures r[|v.title| + 4..|r| - |v.description| - 2] == v.owner.profile.displayName
    ensures r[|r| - |v.description| - 2..|r| - |v.description|] == "\n\n"
  {
    v.title + " by " + v.owner.profile.displayName + "\n\n" + v.description
  }

  /** The subject of the moderation email: the title in back-quotes between a fixed prefix and suffix. */
  function ModerationSubject(title: string): (r: string)
    ensures |r| == |title| + 42
    ensures r[..21] == "[flicks-moderation] `" && r[21..|r| - 21] == title && r[|r| - 21..] == "` is ready for review"
  {
    "[flicks-moderation] `" + title + "` is ready for review"
  }

  /** `channels.get(region, None)` when it is truthy (a channel id of 0 is falsy). */
  function RegionChannel(channels: map<string, int>, region: string): Option<int>
  {
    if region in channels && channels[region] != 0 then Some(channels[region]) else None
  }

  function MarkProcessed(v: Video): Video
  {
    v.(processed := true)
  }

  /** The title and the composed description, pushed to the platform. */
  function DescribeCalls(v: Video): seq<Call>
  {
    [SetTitle(v.vimeoId, v.title), SetDescription(v.vimeoId, ComposedDescription(v))]
  }

  /** The channel of the owner's region, when there is one, and the owner's country as a tag. */
  function ClassifyCalls(v: Video, settings: Settings): seq<Call>
  {
    (match RegionChannel(settings.regionChannels, v.owner.profile.region)
     case Some(c) => [AddToChannel(v.vimeoId, c)]
     case None => [])
    + [AddTags(v.vimeoId, [v.owner.profile.country])]
  }

  /** The calls `process_video` makes to the video platform, in order, if none of them fails. */
  function MetadataCalls(v: Video, settings: Settings): seq<Call>
  {
    DescribeCalls(v) + ClassifyCalls(v, settings)
  }

  /** The save of the processed video and the moderation email that follow the platform calls. */
  function NotifyCalls(v: Video, settings: Settings, recipients: seq<string>,
                       render: (string, Video) -> string): seq<Call>
  {
    [SaveVideo(MarkProcessed(v)),
     SendMail(ModerationSubject(v.title), render(ModerationTemplate, MarkProcessed(v)),
              settings.defaultFromEmail, recipients)]
  }

  /** The calls `process_video` makes for a video it found, in order, if none of them fails. */
  function SyncPlan(v: Video, settings: Settings, recipients: seq<string>,
                    render: (string, Video) -> string): (r: seq<Call>)
    ensures |r| == if RegionChannel(settings.regionChannels, v.owner.profile.region).Some? then 6 else 5
    ensures r[|r| - 2] == SaveVideo(MarkProcessed(v))
    ensures r[|r| - 1].SendMail?
  {
    MetadataCalls(v, settings) + NotifyCalls(v, settings, recipients, render)
  }

  /** The calls `process_deletion` makes, in order, if none of them fails. */
  function DeletionPlan(vimeoId: int, userId: int): (r: seq<Call>)
    ensures |r| == 2 && r[0] == DeleteVideo(vimeoId)
    ensures forall i :: 0 <= i < |r| ==> (IsRemoteCall(r[i]) <==> i == 0)
    ensures r[|r| - 1] == SendRejectionEmail(userId)
  {
    [DeleteVideo(vimeoId), SendRejectionEmail(userId)]
  }

  /** The calls actually made when plan is run: all of it up to and including the first call that fails. */
  function Attempted(plan: seq<Call>, accepts: Call -> bool): (r: seq<Call>)
    ensures |r| <= |plan| && r == plan[..|r|]
    ensures plan != [] ==> |r| > 0
  {
    if plan == [] then []
    else if accepts(plan[0]) then [plan[0]] + Attempted(plan[1..], accepts)
    else [plan[0]]
  }

  /** The first call of plan that fails, if any. */
  function FirstRejected(plan: seq<Call>, accepts: Call -> bool): (r: Option<Call>)
    ensures r.Some? ==> r.value in plan && !accepts(r.value)
  {
    if plan == [] then None
    else if accepts(plan[0]) then FirstRejected(plan[1..], accepts)
    else Some(plan[0])
  }

  function OutcomeOf(plan: seq<Call>, accepts: Call -> bool): Outcome
  {
    match FirstRejected(plan, accepts)
    case None => Completed
    case Some(c) => Raised(c)
  }

  /** Whether call c was made and succeeded when plan was run. */
  predicate Succeeded(plan: seq<Call>, accepts: Call -> bool, c: Call)
  {
    c in Attempted(plan, accepts) && accepts(c)
  }

  /**
   * Running a plan makes a prefix of its calls; every call but the last one
   * made succeeded; the run raises exactly when the last call made failed,
   * and otherwise the whole plan was made.
   */
  lemma {:induction false} AttemptedIsPrefix(plan: seq<Call>, accepts: Call -> bool)
    ensures var a := Attempted(plan, accepts);
      |a| <= |plan| && a == plan[..|a|]
      && (plan != [] ==> |a| > 0)
      && (forall i :: 0 <= i < |a| - 1 ==> accepts(a[i]))
      && (FirstRejected(plan, accepts).None? ==> a == plan && forall i :: 0 <= i < |plan| ==> accepts(plan[i]))
      && (FirstRejected(plan, accepts).Some? ==>
            |a| > 0 && a[|a| - 1] == FirstRejected(plan, accepts).value && !accepts(a[|a| - 1]))
  {
    if plan != [] && accepts(plan[0]) {
      AttemptedIsPrefix(plan[1..], accepts);
      var rest := Attempted(plan[1..], accepts);
      assert Attempted(plan, accepts) == [plan[0]] + rest;
      assert plan[..|rest| + 1] == [plan[0]] + plan[1..][..|rest|];
      if FirstRejected(plan, accepts).None? {
        forall i | 0 <= i < |plan| ensures accepts(plan[i]) {
          if i > 0 { assert plan[i] == plan[1..][i - 1]; }
        }
      }
    }
  }

  /** A failing call ends the run: nothing after the first failing call is made. */
  lemma {:induction false} FailureAborts(plan: seq<Call>, accepts: Call -> bool, i: nat)
    requires i < |plan| && !accepts(plan[i])
    requires forall j :: 0 <= j < i ==> accepts(plan[j])
    ensures Attempted(plan, accepts) == plan[..i + 1]
    ensures OutcomeOf(plan, accepts) == Raised(plan[i])
  {
    if i > 0 {
      FailureAborts(plan[1..], accepts, i - 1);
      assert plan[..i + 1] == [plan[0]] + plan[1..][..i];
    }
  }

  /** Running one plan after another: a failure in the first ends the run there; otherwise the second runs. */
  lemma {:induction false} AttemptedConcat(p: seq<Call>, q: seq<Call>, accepts: Call -> bool)
    ensures FirstRejected(p, accepts).Some? ==>
      Attempted(p + q, accepts) == Attempted(p, accepts) && FirstRejected(p + q, accepts) == FirstRejected(p, accepts)
    ensures FirstRejected(p, accepts).None? ==>
      Attempted(p + q, accepts) == p + Attempted(q, accepts) && FirstRejected(p + q, accepts) == FirstRejected(q, accepts)
  {
    if p == [] {
      assert p + q == q;
    } else {
      assert (p + q)[0] == p[0];
      assert (p + q)[1..] == p[1..] + q;
      AttemptedConcat(p[1..], q, accepts);
      if accepts(p[0]) {
        assert [p[0]] + p[1..] == p;
      }
    }
  }

  /** A single call is made whether or not it fails, and it fails exactly when it is rejected. */
  lemma SingleCall(c: Call, accepts: Call -> bool)
    ensures Attempted([c], accepts) == [c]
    ensures FirstRejected([c], accepts) == if accepts(c) then None else Some(c)
  {
  }

  /** The position of each kind of call in `process_video`. */
  function StepRank(c: Call): nat
  {
    match c
    case SetTitle(_, _) => 0
    case SetDescription(_, _) => 1
    case AddToChannel(_, _) => 2
    case AddTags(_, _) => 3
    case SaveVideo(_) => 4
    case SendMail(_, _, _, _) => 5
    case DeleteVideo(_) => 6
    case SendRejectionEmail(_) => 7
  }

  /** A call to the video platform, as opposed to the store or the mailer. */
  predicate IsRemoteCall(c: Call)
  {
    c.SetTitle? || c.SetDescription? || c.AddToChannel? || c.AddTags? || c.DeleteVideo?
  }

  /**
   * The order of `process_video`: title, description, the optional channel,
   * tags, the save with processed set, then the email; each at most once,
   * beginning with the title and ending with the email. Only the channel call
   * is optional: it is there exactly when the owner's region has a channel.
   */
  lemma SyncPlanOrder(v: Video, settings: Settings, recipients: seq<string>,
                      render: (string, Video) -> string)
    ensures var plan := SyncPlan(v, settings, recipients, render);
      (|plan| == 5 || |plan| == 6)
      && plan[0] == SetTitle(v.vimeoId, v.title)
      && plan[1].SetDescription?
      && plan[|plan| - 3] == AddTags(v.vimeoId, [v.owner.profile.country])
      && plan[|plan| - 2] == SaveVideo(MarkProcessed(v))
      && plan[|plan| - 1].SendMail?
      && (|plan| == 6 <==> RegionChannel(settings.regionChannels, v.owner.profile.region).Some?)
      && forall i, j :: 0 <= i < j < |plan| ==> StepRank(plan[i]) < StepRank(plan[j])
  {
  }

  /** The description sent is exactly "<title> by <display name>\n\n<description>", to the video's id. */
  lemma SyncPlanDescription(v: Video, settings: Settings, recipients: seq<string>,
                            render: (string, Video) -> string)
    ensures SyncPlan(v, settings, recipients, render)[1]
         == SetDescription(v.vimeoId, v.title + " by " + v.owner.profile.displayName + "\n\n" + v.description)
  {
  }

  /**
   * The channel call is made exactly when the owner's region maps to a
   * non-zero channel id, and then with that id; the tag call carries the
   * one-element list of the owner's country.
   */
  lemma SyncPlanChannelAndTags(v: Video, settings: Settings, recipients: seq<string>,
                               render: (string, Video) -> string)
    ensures var plan := SyncPlan(v, settings, recipients, render);
      var region := v.owner.profile.region;
      ((exists i :: 0 <= i < |plan| && plan[i].AddToChannel?) <==>
         region in settings.regionChannels && settings.regionChannels[region] != 0)
      && (forall i :: 0 <= i < |plan| && plan[i].AddToChannel? ==>
            plan[i] == AddToChannel(v.vimeoId, settings.regionChannels[region]))
      && (forall i :: 0 <= i < |plan| && plan[i].AddTags? ==>
            plan[i] == AddTags(v.vimeoId, [v.owner.profile.country]))
      && (exists i :: 0 <= i < |plan| && plan[i].AddTags?)
  {
    var plan := SyncPlan(v, settings, recipients, render);
    var region := v.owner.profile.region;
    assert plan[|plan| - 3].AddTags?;
    if region in settings.regionChannels && settings.regionChannels[region] != 0 {
      assert plan[2].AddToChannel?;
    }
  }

  /**
   * Exactly one email is sent, the last call: its subject names the title,
   * its body is the moderation template rendered with the processed video,
   * and it goes to each moderator once.
   */
  lemma SyncPlanOneEmail(v: Video, settings: Settings, users: seq<User>, grants: GroupPermissions,
                         render: (string, Video) -> string)
    ensures var plan := SyncPlan(v, settings, Recipients(users, grants), render);
      (forall i :: 0 <= i < |plan| && plan[i].SendMail? ==> i == |plan| - 1)
      && plan[|plan| - 1] == SendMail("[flicks-moderation] `" + v.title + "` is ready for review",
                                      render(ModerationTemplate, v.(processed := true)),
                                      settings.defaultFromEmail,
                                      Recipients(users, grants))
      && NoDuplicates(Moderators(users, grants, ReviewPermission))
  {
  }

  /**
   * The video is saved as processed only if every platform call before it
   * succeeded; a failing platform call leaves it unsaved and sends no email.
   */
  lemma ProcessedOnlyAfterRemoteCalls(v: Video, settings: Settings, recipients: seq<string>,
                                      render: (string, Video) -> string, accepts: Call -> bool)
    ensures var plan := SyncPlan(v, settings, recipients, render);
      (Succeeded(plan, accepts, SaveVideo(MarkProcessed(v))) ==>
         forall i :: 0 <= i < |plan| && IsRemoteCall(plan[i]) ==> accepts(plan[i]))
      && ((exists i :: 0 <= i < |plan| && IsRemoteCall(plan[i]) && !accepts(plan[i])) ==>
            !Succeeded(plan, accepts, SaveVideo(MarkProcessed(v)))
            && forall c :: c in Attempted(plan, accepts) ==> !c.SendMail?)
  {
    var plan := SyncPlan(v, settings, recipients, render);
    SyncPlanOrder(v, settings, recipients, render);
    if exists i :: 0 <= i < |plan| && IsRemoteCall(plan[i]) && !accepts(plan[i]) {
      var i :| 0 <= i < |plan| && IsRemoteCall(plan[i]) && !accepts(plan[i]);
      RankedStop(plan, accepts, |plan| - 2, i);
    }
  }

  /**
   * In a plan whose calls strictly increase in StepRank, a failing call at i
   * keeps every call ranked at or after a later position k from being made.
   */
  lemma RankedStop(plan: seq<Call>, accepts: Call -> bool, k: nat, i: nat)
    requires i < k < |plan| && !accepts(plan[i])
    requires forall x, y :: 0 <= x < y < |plan| ==> StepRank(plan[x]) < StepRank(plan[y])
    ensures forall c :: c in Attempted(plan, accepts) ==> StepRank(c) < StepRank(plan[k])
  {
    AttemptedIsPrefix(plan, accepts);
    var a := Attempted(plan, accepts);
    forall c | c in a ensures StepRank(c) < StepRank(plan[k]) {
      var m :| 0 <= m < |a| && a[m] == c;
      assert a[m] == plan[m];
    }
  }

  /**
   * A run of `process_video` completes exactly when every call succeeds;
   * then every call was made, the video was saved with processed set and
   * the moderation email was sent.
   */
  lemma CompletedRunSavesAndMails(v: Video, settings: Settings, recipients: seq<string>,
                                  render: (string, Video) -> string, accepts: Call -> bool)
    ensures var plan := SyncPlan(v, settings, recipients, render);
      (OutcomeOf(plan, accepts) == Completed <==> forall i :: 0 <= i < |plan| ==> accepts(plan[i]))
      && (OutcomeOf(plan, accepts) == Completed ==>
            Attempted(plan, accepts) == plan
            && Succeeded(plan, accepts, SaveVideo(MarkProcessed(v)))
            && Succeeded(plan, accepts, SendMail(ModerationSubject(v.title), render(ModerationTemplate, MarkProcessed(v)),
                                                 settings.defaultFromEmail, recipients)))
  {
    var plan := SyncPlan(v, settings, recipients, render);
    AttemptedIsPrefix(plan, accepts);
    assert plan[|plan| - 1] == SendMail(ModerationSubject(v.title), render(ModerationTemplate, MarkProcessed(v)),
                                        settings.defaultFromEmail, recipients);
  }

  /** The processed video is saved exactly when every platform call and the save itself succeed. */
  lemma SavedAfterMetadata(v: Video, settings: Settings, recipients: seq<string>,
                           render: (string, Video) -> string, accepts: Call -> bool)
    ensures Succeeded(SyncPlan(v, settings, recipients, render), accepts, SaveVideo(MarkProcessed(v))) <==>
      FirstRejected(MetadataCalls(v, settings), accepts).None? && accepts(SaveVideo(MarkProcessed(v)))
  {
    var meta := MetadataCalls(v, settings);
    var notify := NotifyCalls(v, settings, recipients, render);
    var save := SaveVideo(MarkProcessed(v));
    AttemptedConcat(meta, notify, accepts);
    AttemptedIsPrefix(meta, accepts);
    assert save !in meta;
    assert Attempted(notify, accepts)[0] == save;
  }

  /** A run of `process_video` is the run of its platform calls, followed by the save and the email when they all succeed. */
  lemma SyncRun(v: Video, settings: Settings, recipients: seq<string>,
                render: (string, Video) -> string, accepts: Call -> bool)
    ensures var plan := SyncPlan(v, settings, recipients, render);
      var meta := MetadataCalls(v, settings);
      var notify := NotifyCalls(v, settings, recipients, render);
      (FirstRejected(meta, accepts).Some? ==>
         Attempted(plan, accepts) == Attempted(meta, accepts)
         && OutcomeOf(plan, accepts) == Raised(FirstRejected(meta, accepts).value)
         && !Succeeded(plan, accepts, SaveVideo(MarkProcessed(v))))
      && (FirstRejected(meta, accepts).None? ==>
            Attempted(plan, accepts) == Attempted(meta, accepts) + Attempted(notify, accepts)
            && OutcomeOf(plan, accepts) == OutcomeOf(notify, accepts)
            && (Succeeded(plan, accepts, SaveVideo(MarkProcessed(v))) <==> accepts(SaveVideo(MarkProcessed(v)))))
  {
    AttemptedConcat(MetadataCalls(v, settings), NotifyCalls(v, settings, recipients, render), accepts);
    SavedAfterMetadata(v, settings, recipients, render, accepts);
    AttemptedIsPrefix(MetadataCalls(v, settings), accepts);
  }

  /** Deletion comes first; if it fails the rejection notice is not sent. */
  lemma DeletionOrder(vimeoId: int, userId: int, accepts: Call -> bool)
    ensures !accepts(DeleteVideo(vimeoId)) ==>
      Attempted(DeletionPlan(vimeoId, userId), accepts) == [DeleteVideo(vimeoId)]
      && OutcomeOf(DeletionPlan(vimeoId, userId), accepts) == Raised(DeleteVideo(vimeoId))
    ensures accepts(DeleteVideo(vimeoId)) ==>
      Attempted(DeletionPlan(vimeoId, userId), accepts) == [DeleteVideo(vimeoId), SendRejectionEmail(userId)]
  {
    var plan := DeletionPlan(vimeoId, userId);
    assert plan[1..] == [SendRejectionEmail(userId)];
    assert plan[1..][1..] == [];
    assert Attempted(plan[1..], accepts) == [SendRejectionEmail(userId)];
  }

  /** The worker's view of the world: the Video table, the user and group tables, the settings, and the calls made. */
  class Worker {
    var videos: map<int, Video>
    var trace: seq<Call>
    const settings: Settings
    const users: seq<User>
    const grants: GroupPermissions

    /** Every video is stored under its own id. */
    ghost predicate Valid()
      reads this
    {
      forall k :: k in videos ==> videos[k].id == k
    }

    constructor (videos: map<int, Video>, settings: Settings, users: seq<User>, grants: GroupPermissions)
      requires forall k :: k in videos ==> videos[k].id == k
      ensures Valid()
      ensures this.videos == videos && this.settings == settings
      ensures this.users == users && this.grants == grants && trace == []
    {
      this.videos := videos;
      this.settings := settings;
      this.users := users;
      this.grants := grants;
      trace := [];
    }

    /** Make one call: record it, and report whether it succeeded. */
    method Perform(c: Call, accepts: Call -> bool) returns (ok: bool)
      modifies this`trace
      ensures trace == old(trace) + [c]
      ensures ok == accepts(c)
    {
      trace := trace + [c];
      ok := accepts(c);
    }

    /** One call of a plan: make it, and say which call failed, if it did. */
    method Step(c: Call, accepts: Call -> bool) returns (failed: Option<Call>)
      modifies this`trace
      ensures trace == old(trace) + [c]
      ensures failed == if accepts(c) then None else Some(c)
      ensures trace == old(trace) + Attempted([c], accepts)
      ensures failed == FirstRejected([c], accepts)
    {
      SingleCall(c, accepts);
      var ok := Perform(c, accepts);
      failed := if ok then None else Some(c);
    }

    /** Push the title, then the composed description. */
    method Describe(v: Video, accepts: Call -> bool) returns (failed: Option<Call>)
      modifies this`trace
      ensures trace == old(trace) + Attempted(DescribeCalls(v), accepts)
      ensures failed == FirstRejected(DescribeCalls(v), accepts)
    {
      var title := SetTitle(v.vimeoId, v.title);
      var describe := SetDescription(v.vimeoId, ComposedDescription(v));
      assert DescribeCalls(v) == [title] + [describe];
      AttemptedConcat([title], [describe], accepts);
      failed := Step(title, accepts);
      if failed.Some? { return; }
      failed := Step(describe, accepts);
    }

    /** Add the video to its region's channel when the region has one, then tag it with the owner's country. */
    method Classify(v: Video, accepts: Call -> bool) returns (failed: Option<Call>)
      modifies this`trace
      ensures trace == old(trace) + Attempted(ClassifyCalls(v, settings), accepts)
      ensures failed == FirstRejected(ClassifyCalls(v, settings), accepts)
    {
      var channel := RegionChannel(settings.regionChannels, v.owner.profile.region);
      var tag := AddTags(v.vimeoId, [v.owner.profile.country]);
      if channel.Some? {
        var join := AddToChannel(v.vimeoId, channel.value);
        assert ClassifyCalls(v, settings) == [join] + [tag];
        AttemptedConcat([join], [tag], accepts);
        failed := Step(join, accepts);
        if failed.Some? { return; }
      } else {
        assert ClassifyCalls(v, settings) == [tag];
      }
      failed := Step(tag, accepts);
    }

    /** The platform calls of `process_video`: title, composed description, the region's channel, the country tag. */
    method PushMetadata(v: Video, accepts: Call -> bool) returns (failed: Option<Call>)
      modifies this`trace
      ensures trace == old(trace) + Attempted(MetadataCalls(v, settings), accepts)
      ensures failed == FirstRejected(MetadataCalls(v, settings), accepts)
    {
      AttemptedConcat(DescribeCalls(v), ClassifyCalls(v, settings), accepts);
      AttemptedIsPrefix(DescribeCalls(v), accepts);
      failed := Describe(v, accepts);
      if failed.Some? { return; }
      failed := Classify(v, accepts);
    }

    /** Save the video with processed set, then email the moderators. */
    method SaveAndNotify(v: Video, accepts: Call -> bool, render: (string, Video) -> string)
      returns (failed: Option<Call>)
      requires Valid() && v.id in videos && videos[v.id] == v
      modifies this`trace, this`videos
      ensures Valid()
      ensures trace == old(trace) + Attempted(NotifyCalls(v, settings, Recipients(users, grants), render), accepts)
      ensures failed == FirstRejected(NotifyCalls(v, settings, Recipients(users, grants), render), accepts)
      ensures videos == (if accepts(SaveVideo(MarkProcessed(v))) then old(videos)[v.id := MarkProcessed(v)]
                         else old(videos))
      ensures failed.None? ==> videos == old(videos)[v.id := MarkProcessed(v)]
    {
      var processed := v.(processed := true);
      var save := SaveVideo(processed);
      var recipients := Recipients(users, grants);
      var subject := ModerationSubject(v.title);
      var body := render(ModerationTemplate, processed);
      var mail := SendMail(subject, body, settings.defaultFromEmail, recipients);
      assert NotifyCalls(v, settings, Recipients(users, grants), render) == [save] + [mail];
      AttemptedConcat([save], [mail], accepts);
      failed := Step(save, accepts);
      if failed.Some? {
        return;
      }
      videos := videos[v.id := processed];
      failed := Step(mail, accepts);
    }

    /** The calls of `process_video` for a video it found: the platform calls, then the save and the email. */
    method Sync(v: Video, accepts: Call -> bool, render: (string, Video) -> string) returns (outcome: Outcome)
      requires Valid() && v.id in videos && videos[v.id] == v
      modifies this`trace, this`videos
      ensures Valid()
      ensures var plan := SyncPlan(v, settings, Recipients(users, grants), render);
        trace == old(trace) + Attempted(plan, accepts)
        && outcome == OutcomeOf(plan, accepts)
        && videos == (if Succeeded(plan, accepts, SaveVideo(MarkProcessed(v)))
                      then old(videos)[v.id := MarkProcessed(v)] else old(videos))
      ensures outcome == Completed ==> videos == old(videos)[v.id := MarkProcessed(v)]
    {
      SyncRun(v, settings, Recipients(users, grants), render, accepts);
      var failed := PushMetadata(v, accepts);
      if failed.Some? {
        return Raised(failed.value);
      }
      failed := SaveAndNotify(v, accepts, render);
      outcome := if failed.Some? then Raised(failed.value) else Completed;
    }

    /** `process_video(video_id)`. */
    method ProcessVideo(videoId: int, accepts: Call -> bool, render: (string, Video) -> string)
      returns (outcome: Outcome)
      requires Valid()
      modifies this`trace, this`videos
      ensures Valid()
      ensures videoId !in old(videos) ==>
        outcome == NotFound && trace == old(trace) && videos == old(videos)
      ensures videoId in old(videos) ==>
        var v := old(videos)[videoId];
        var plan := SyncPlan(v, settings, Recipients(users, grants), render);
        trace == old(trace) + Attempted(plan, accepts)
        && outcome == OutcomeOf(plan, accepts)
        && videos == (if Succeeded(plan, accepts, SaveVideo(MarkProcessed(v)))
                      then old(videos)[videoId := MarkProcessed(v)] else old(videos))
      ensures outcome == Completed ==> videoId in videos && videos[videoId] == MarkProcessed(old(videos)[videoId])
    {
      if videoId !in videos {
        return NotFound;
      }
      var v := videos[videoId];
      outcome := Sync(v, accepts, render);
    }

    /** `process_deletion(vimeo_id, user_id)`. */
    method ProcessDeletion(vimeoId: int, userId: int, accepts: Call -> bool) returns (outcome: Outcome)
      modifies this`trace
      ensures trace == old(trace) + Attempted(DeletionPlan(vimeoId, userId), accepts)
      ensures outcome == OutcomeOf(DeletionPlan(vimeoId, userId), accepts)
    {
      ghost var plan := DeletionPlan(vimeoId, userId);
      var call := DeleteVideo(vimeoId);
      var ok := Perform(call, accepts);
      if !ok {
        return Raised(call);
      }
      call := SendRejectionEmail(userId);
      ok := Perform(call, accepts);
      assert plan[1..] == [call];
      assert plan[1..][1..] == [];
      assert Attempted(plan[1..], accepts) == [call];
      assert FirstRejected(plan[1..], accepts) == if ok then None else Some(call);
      if !ok {
        return Raised(call);
      }
      return Completed;
    }
  }
}
