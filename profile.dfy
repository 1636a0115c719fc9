/** The profile page (src/pages/Profile.tsx): the signed-in user's profile, CV, education,
    work experience and achievements, the handlers that patch the local lists after each store
    call, and the callbacks the personal-information panel uses. */
module Profile {
  import opened Wrappers
  import opened Types
  import opened ListPatch
  import InformacionPersonal

  // ---- Pure projections ----

  /** The CV shown after loading a profile: set from the profile when both CV columns are
      non-empty, otherwise left as it was. */
  function CvProjection(p: UserProfile, current: Option<CVFile>): (r: Option<CVFile>)
    ensures Truthy(p.cv_filename) && Truthy(p.cv_updated_at) ==>
      r == Some(CVFile(p.cv_filename.value, p.cv_updated_at.value))
    ensures !(Truthy(p.cv_filename) && Truthy(p.cv_updated_at)) ==> r == current
  {
    if Truthy(p.cv_filename) && Truthy(p.cv_updated_at) then
      Some(CVFile(p.cv_filename.value, p.cv_updated_at.value))
    else current
  }

  /** The profile row after the panel's columns are written. */
  function WithCvColumns(p: UserProfile, c: InformacionPersonal.CvColumns): UserProfile {
    p.(cv_filename := c.cv_filename, cv_updated_at := c.cv_updated_at)
  }

  /** An upload and a later load agree: the CV a fresh page reads from the written columns is
      the one the panel reported when it wrote them. */
  lemma UploadThenLoad(p: UserProfile, f: InformacionPersonal.FileInfo, content: string, now: string)
    requires f.name != "" && now != ""
    ensures CvProjection(WithCvColumns(p, InformacionPersonal.UploadedColumns(f, content, now)), None)
      == InformacionPersonal.UploadReport(f, Success, now)
  {
  }

  /** After a removal a fresh page shows no CV. */
  lemma RemoveThenLoad(p: UserProfile, user: string, stored: Outcome)
    ensures CvProjection(WithCvColumns(p, InformacionPersonal.RemoveCv(Some(user), stored).update.value), None) == None
  {
  }

  /** One row of the achievements query: the grant's date and the joined achievement. */
  datatype AchievementRow = AchievementRow(id: string, name: string, description: string)
  datatype AchievementGrant = AchievementGrant(earned_at: string, achievement: AchievementRow)

  function FormatAchievement(g: AchievementGrant): Achievement {
    Achievement(g.achievement.id, g.achievement.name, g.achievement.description, g.earned_at)
  }

  /** The flattening of the joined rows: one achievement per row, in order, carrying the joined
      achievement's id, name and description and the grant's date. */
  function FlattenAchievements(grants: seq<AchievementGrant>): (r: seq<Achievement>)
    ensures |r| == |grants|
    ensures forall i :: 0 <= i < |grants| ==>
      && r[i].id == grants[i].achievement.id && r[i].name == grants[i].achievement.name
      && r[i].description == grants[i].achievement.description && r[i].earned_at == grants[i].earned_at
  {
    if grants == [] then [] else [FormatAchievement(grants[0])] + FlattenAchievements(grants[1..])
  }

  /** Flattening distributes over concatenation of the query's rows. */
  lemma {:induction false} FlattenConcat(a: seq<AchievementGrant>, b: seq<AchievementGrant>)
    ensures FlattenAchievements(a + b) == FlattenAchievements(a) + FlattenAchievements(b)
  {
    var l := FlattenAchievements(a + b);
    var rr := FlattenAchievements(a) + FlattenAchievements(b);
    assert |l| == |rr|;
    forall i | 0 <= i < |l| ensures l[i] == rr[i] {
      if i < |a| {
        assert (a + b)[i] == a[i];
      } else {
        assert (a + b)[i] == b[i - |a|];
      }
    }
  }

  datatype ProfileTab = Personal | EducationTab | Experience

  /** The page's state.  Every store call is a parameter: `user` is what the session returns
      (a user id, or none), and a `Remote` reply is the row the store returns or an error. */
  class ProfilePage {
    var loading: bool
    var userProfile: Option<UserProfile>
    var education: seq<Education>
    var workExperience: seq<WorkExperience>
    var cvFile: Option<CVFile>
    var achievements: seq<Achievement>
    var activeTab: ProfileTab
    var navigatedTo: Option<string>

    constructor()
      ensures loading && userProfile == None && education == [] && workExperience == []
      ensures cvFile == None && achievements == [] && activeTab == Personal && navigatedTo == None
    {
      loading := true;
      userProfile := None;
      education := [];
      workExperience := [];
      cvFile := None;
      achievements := [];
      activeTab := Personal;
      navigatedTo := None;
    }

    /** `checkUser`: with no user the page goes to the login; otherwise a loaded profile is
        stored and its CV columns projected. Loading ends on every path. */
    method CheckUser(user: Option<string>, reply: Remote<UserProfile>)
      modifies this
      ensures !loading
      ensures user.None? ==> navigatedTo == Some("/login") && userProfile == old(userProfile) && cvFile == old(cvFile)
      ensures user.Some? ==> navigatedTo == old(navigatedTo)
      ensures user.Some? && reply.Returned? ==>
        userProfile == Some(reply.row) && cvFile == CvProjection(reply.row, old(cvFile))
      ensures user.Some? && reply.StoreError? ==> userProfile == old(userProfile) && cvFile == old(cvFile)
      ensures education == old(education) && workExperience == old(workExperience)
      ensures achievements == old(achievements) && activeTab == old(activeTab)
    {
      if user.None? {
        navigatedTo := Some("/login");
      } else if reply.Returned? {
        cvFile := CvProjection(reply.row, cvFile);
        userProfile := Some(reply.row);
      }
      loading := false;
    }

    /** `fetchEducation`: a user's successful query replaces the list (`data || []`); anything
        else leaves it. */
    method FetchEducation(user: Option<string>, reply: Remote<Option<seq<Education>>>)
      modifies this
      ensures user.Some? && reply.Returned? ==> education == ListOrEmpty(reply.row)
      ensures !(user.Some? && reply.Returned?) ==> education == old(education)
      ensures workExperience == old(workExperience) && userProfile == old(userProfile) && cvFile == old(cvFile)
      ensures achievements == old(achievements) && loading == old(loading)
      ensures activeTab == old(activeTab) && navigatedTo == old(navigatedTo)
    {
      if user.Some? && reply.Returned? {
        education := ListOrEmpty(reply.row);
      }
    }

    /** `fetchWorkExperience`, the same for the work list. */
    method FetchWorkExperience(user: Option<string>, reply: Remote<Option<seq<WorkExperience>>>)
      modifies this
      ensures user.Some? && reply.Returned? ==> workExperience == ListOrEmpty(reply.row)
      ensures !(user.Some? && reply.Returned?) ==> workExperience == old(workExperience)
      ensures education == old(education) && userProfile == old(userProfile) && cvFile == old(cvFile)
      ensures achievements == old(achievements) && loading == old(loading)
      ensures activeTab == old(activeTab) && navigatedTo == old(navigatedTo)
    {
      if user.Some? && reply.Returned? {
        workExperience := ListOrEmpty(reply.row);
      }
    }

    /** `fetchAchievements`: a user's successful query replaces the list by its flattening. */
    method FetchAchievements(user: Option<string>, reply: Remote<seq<AchievementGrant>>)
      modifies this
      ensures user.Some? && reply.Returned? ==> achievements == FlattenAchievements(reply.row)
      ensures !(user.Some? && reply.Returned?) ==> achievements == old(achievements)
      ensures education == old(education) && workExperience == old(workExperience)
      ensures userProfile == old(userProfile) && cvFile == old(cvFile)
      ensures loading == old(loading) && activeTab == old(activeTab) && navigatedTo == old(navigatedTo)
    {
      if user.Some? && reply.Returned? {
        achievements := FlattenAchievements(reply.row);
      }
    }

    /** `handleAddEducation`: the stored row goes to the front. The handler catches every
        error, so its promise always resolves. */
    method AddEducation(user: Option<string>, reply: Remote<Education>) returns (settled: Outcome)
      modifies this
      ensures settled == Success
      ensures user.Some? && reply.Returned? ==> education == Prepend(old(education), reply.row)
      ensures !(user.Some? && reply.Returned?) ==> education == old(education)
      ensures workExperience == old(workExperience) && userProfile == old(userProfile) && cvFile == old(cvFile)
      ensures achievements == old(achievements) && loading == old(loading)
      ensures activeTab == old(activeTab) && navigatedTo == old(navigatedTo)
    {
      if user.Some? && reply.Returned? {
        education := Prepend(education, reply.row);
      }
      settled := Success;
    }

    /** `handleUpdateEducation`: every entry with the id becomes the returned row. */
    method UpdateEducation(user: Option<string>, id: string, reply: Remote<Education>) returns (settled: Outcome)
      modifies this
      ensures settled == Success
      ensures user.Some? && reply.Returned? ==> education == ReplaceWhere(old(education), EducationId, id, reply.row)
      ensures !(user.Some? && reply.Returned?) ==> education == old(education)
      ensures workExperience == old(workExperience) && userProfile == old(userProfile) && cvFile == old(cvFile)
      ensures achievements == old(achievements) && loading == old(loading)
      ensures activeTab == old(activeTab) && navigatedTo == old(navigatedTo)
    {
      if user.Some? && reply.Returned? {
        education := ReplaceWhere(education, EducationId, id, reply.row);
      }
      settled := Success;
    }

    /** `handleDeleteEducation`: every entry with the id is dropped. */
    method DeleteEducation(user: Option<string>, id: string, stored: Outcome) returns (settled: Outcome)
      modifies this
      ensures settled == Success
      ensures user.Some? && stored == Success ==> education == FilterOut(old(education), EducationId, id)
      ensures !(user.Some? && stored == Success) ==> education == old(education)
      ensures workExperience == old(workExperience) && userProfile == old(userProfile) && cvFile == old(cvFile)
      ensures achievements == old(achievements) && loading == old(loading)
      ensures activeTab == old(activeTab) && navigatedTo == old(navigatedTo)
    {
      if user.Some? && stored == Success {
        education := FilterOut(education, EducationId, id);
      }
      settled := Success;
    }

    /** `handleAddWorkExperience`. */
    method AddWorkExperience(user: Option<string>, reply: Remote<WorkExperience>) returns (settled: Outcome)
      modifies this
      ensures settled == Success
      ensures user.Some? && reply.Returned? ==> workExperience == Prepend(old(workExperience), reply.row)
      ensures !(user.Some? && reply.Returned?) ==> workExperience == old(workExperience)
      ensures education == old(education) && userProfile == old(userProfile) && cvFile == old(cvFile)
      ensures achievements == old(achievements) && loading == old(loading)
      ensures activeTab == old(activeTab) && navigatedTo == old(navigatedTo)
    {
      if user.Some? && reply.Returned? {
        workExperience := Prepend(workExperience, reply.row);
      }
      settled := Success;
    }

    /** `handleUpdateWorkExperience`. */
    method UpdateWorkExperience(user: Option<string>, id: string, reply: Remote<WorkExperience>) returns (settled: Outcome)
      modifies this
      ensures settled == Success
      ensures user.Some? && reply.Returned? ==>
        workExperience == ReplaceWhere(old(workExperience), WorkExperienceId, id, reply.row)
      ensures !(user.Some? && reply.Returned?) ==> workExperience == old(workExperience)
      ensures education == old(education) && userProfile == old(userProfile) && cvFile == old(cvFile)
      ensures achievements == old(achievements) && loading == old(loading)
      ensures activeTab == old(activeTab) && navigatedTo == old(navigatedTo)
    {
      if user.Some? && reply.Returned? {
        workExperience := ReplaceWhere(workExperience, WorkExperienceId, id, reply.row);
      }
      settled := Success;
    }

    /** `handleDeleteWorkExperience`. */
    method DeleteWorkExperience(user: Option<string>, id: string, stored: Outcome) returns (settled: Outcome)
      modifies this
      ensures settled == Success
      ensures user.Some? && stored == Success ==> workExperience == FilterOut(old(workExperience), WorkExperienceId, id)
      ensures !(user.Some? && stored == Success) ==> workExperience == old(workExperience)
      ensures education == old(education) && userProfile == old(userProfile) && cvFile == old(cvFile)
      ensures achievements == old(achievements) && loading == old(loading)
      ensures activeTab == old(activeTab) && navigatedTo == old(navigatedTo)
    {
      if user.Some? && stored == Success {
        workExperience := FilterOut(workExperience, WorkExperienceId, id);
      }
      settled := Success;
    }

    /** The panel's `onUpdateProfile`. */
    method UpdateProfile(form: InformacionPersonal.PersonalForm)
      modifies this
      ensures userProfile == InformacionPersonal.MergePersonalInfo(old(userProfile), form)
      ensures education == old(education) && workExperience == old(workExperience) && cvFile == old(cvFile)
      ensures achievements == old(achievements) && loading == old(loading)
      ensures activeTab == old(activeTab) && navigatedTo == old(navigatedTo)
    {
      userProfile := InformacionPersonal.MergePersonalInfo(userProfile, form);
    }

    /** The panel's `onUpdateCV`, which is `setCvFile`. */
    method UpdateCV(c: Option<CVFile>)
      modifies this
      ensures cvFile == c
      ensures education == old(education) && workExperience == old(workExperience) && userProfile == old(userProfile)
      ensures achievements == old(achievements) && loading == old(loading)
      ensures activeTab == old(activeTab) && navigatedTo == old(navigatedTo)
    {
      cvFile := c;
    }

    /** A tab button. */
    method SelectTab(t: ProfileTab)
      modifies this
      ensures activeTab == t
      ensures education == old(education) && workExperience == old(workExperience) && userProfile == old(userProfile)
      ensures achievements == old(achievements) && loading == old(loading)
      ensures cvFile == old(cvFile) && navigatedTo == old(navigatedTo)
    {
      activeTab := t;
    }
  }
}
