/** The administrator's users table (src/components/admin/UsersTab.tsx): the user list, the
    selected user's details, the account-deletion cascade and the CV download. */
module UsersTab {
  import opened Wrappers
  import opened Types
  import opened ListPatch

  /** The four store requests of a deletion, each keyed by the user id. */
  datatype DeleteStep =
    | DeleteEducationRows(userId: string)
    | DeleteWorkExperienceRows(userId: string)
    | DeleteProfileRow(userId: string)
    | DeleteAuthUser(userId: string)

  /** The cascade, in the order it is issued: education, work experience, the profile row and
      last the sign-in identity. */
  function Cascade(userId: string): (steps: seq<DeleteStep>)
    ensures |steps| == 4
    ensures forall i :: 0 <= i < 4 ==> steps[i].userId == userId
    ensures steps[0].DeleteEducationRows? && steps[1].DeleteWorkExperienceRows?
    ensures steps[2].DeleteProfileRow? && steps[3].DeleteAuthUser?
  {
    [DeleteEducationRows(userId), DeleteWorkExperienceRows(userId), DeleteProfileRow(userId), DeleteAuthUser(userId)]
  }

  function ProfileUserId(u: UserProfile): Option<string> { u.user_id }

  /** The local patch after a deletion: `users.filter(u => u.user_id !== userId)`. */
  function WithoutUser(users: seq<UserProfile>, userId: string): (r: seq<UserProfile>)
    ensures forall i :: 0 <= i < |r| ==> r[i] in users && r[i].user_id != Some(userId)
    ensures forall u :: u in users && u.user_id != Some(userId) ==> u in r
  {
    FilterOut(users, ProfileUserId, Some(userId))
  }

  /** Removing a user keeps everyone else in their order, whatever the table holds: the patch
      of a table split anywhere is the patch of each part, joined. */
  lemma WithoutUserConcat(a: seq<UserProfile>, b: seq<UserProfile>, userId: string)
    ensures WithoutUser(a + b, userId) == WithoutUser(a, userId) + WithoutUser(b, userId)
  {
    FilterOutConcat(a, b, ProfileUserId, Some(userId));
  }

  /** The usual case, one profile row per identity: the table closes up around the user's
      row and the others stay as they were. */
  lemma WithoutUserKeepsOrder(pre: seq<UserProfile>, u: UserProfile, post: seq<UserProfile>, userId: string)
    requires u.user_id == Some(userId)
    requires forall i :: 0 <= i < |pre| ==> pre[i].user_id != Some(userId)
    requires forall i :: 0 <= i < |post| ==> post[i].user_id != Some(userId)
    ensures WithoutUser(pre + [u] + post, userId) == pre + post
  {
    FilterOutSplit(pre, u, post, ProfileUserId);
    FilterOutAbsent(pre, ProfileUserId, Some(userId));
    FilterOutAbsent(post, ProfileUserId, Some(userId));
  }

  /** `cv_data` and `cv_filename` of the queried row. */
  datatype CvRow = CvRow(cv_data: Option<string>, cv_filename: Option<string>)

  /** A download needs both columns non-empty. */
  predicate HasCv(row: CvRow) {
    Truthy(row.cv_data) && Truthy(row.cv_filename)
  }

  /** The result of `downloadUserCV`: an error alert (the query failed or the data did not
      decode), the "no CV" alert, or a PDF offered under the stored file name. */
  datatype Download = DownloadFailed | NoCv | Offered(filename: string, bytes: seq<int>)

  /** A `Uint8Array` element: the value modulo 256. */
  function Uint8(x: int): (b: int)
    ensures 0 <= b < 256
    ensures 0 <= x < 256 ==> b == x
  {
    x % 256
  }

  /** Characters of a decoded string carry codes below 256. */
  predicate IsBinaryString(s: string) {
    forall i :: 0 <= i < |s| ==> (s[i] as int) < 256
  }

  /** The loop of `downloadUserCV`: `byteNumbers[i] = byteCharacters.charCodeAt(i)`. */
  method CharCodes(s: string) returns (byteNumbers: array<int>)
    ensures fresh(byteNumbers)
    ensures byteNumbers.Length == |s|
    ensures forall i :: 0 <= i < |s| ==> byteNumbers[i] == s[i] as int
  {
    byteNumbers := new int[|s|];
    var i := 0;
    while i < |s|
      invariant 0 <= i <= |s|
      invariant forall j :: 0 <= j < i ==> byteNumbers[j] == s[j] as int
    {
      byteNumbers[i] := s[i] as int;
      i := i + 1;
    }
  }

  /** `new Uint8Array(byteNumbers)`: a new buffer of the same length, each element reduced. */
  method ToUint8Array(numbers: array<int>) returns (bytes: array<int>)
    ensures fresh(bytes)
    ensures bytes.Length == numbers.Length
    ensures forall i :: 0 <= i < numbers.Length ==> bytes[i] == Uint8(numbers[i])
  {
    bytes := new int[numbers.Length];
    var i := 0;
    while i < numbers.Length
      invariant 0 <= i <= numbers.Length
      invariant forall j :: 0 <= j < i ==> bytes[j] == Uint8(numbers[j])
    {
      bytes[i] := Uint8(numbers[i]);
      i := i + 1;
    }
  }

  /** `downloadUserCV`.  `decode` is `atob`, which fails on text that is not base64. When the
      decoded text is a binary string, the bytes offered are exactly its character codes. */
  method DownloadUserCv(reply: Remote<CvRow>, decode: string -> Option<string>) returns (d: Download)
    ensures reply.StoreError? ==> d == DownloadFailed
    ensures reply.Returned? && !HasCv(reply.row) ==> d == NoCv
    ensures reply.Returned? && HasCv(reply.row) && decode(reply.row.cv_data.value).None? ==> d == DownloadFailed
    ensures d.Offered? ==>
      && reply.Returned? && HasCv(reply.row) && d.filename == reply.row.cv_filename.value
      && decode(reply.row.cv_data.value).Some?
      && |d.bytes| == |decode(reply.row.cv_data.value).value|
      && forall i :: 0 <= i < |d.bytes| ==> d.bytes[i] == Uint8(decode(reply.row.cv_data.value).value[i] as int)
    ensures d.Offered? && IsBinaryString(decode(reply.row.cv_data.value).value) ==>
      forall i :: 0 <= i < |d.bytes| ==> d.bytes[i] == decode(reply.row.cv_data.value).value[i] as int
    ensures reply.Returned? && HasCv(reply.row) && decode(reply.row.cv_data.value).Some? ==> d.Offered?
  {
    if reply.StoreError? {
      return DownloadFailed;
    }
    if !HasCv(reply.row) {
      return NoCv;
    }
    var decoded := decode(reply.row.cv_data.value);
    if decoded.None? {
      return DownloadFailed;
    }
    var byteNumbers := CharCodes(decoded.value);
    var byteArray := ToUint8Array(byteNumbers);
    d := Offered(reply.row.cv_filename.value, byteArray[..]);
  }

  /** The table's state. */
  class UsersTable {
    var users: seq<UserProfile>
    var selectedUser: Option<string>
    var userEducation: seq<Education>
    var userExperience: seq<WorkExperience>

    constructor()
      ensures users == [] && selectedUser == None && userEducation == [] && userExperience == []
    {
      users := [];
      selectedUser := None;
      userEducation := [];
      userExperience := [];
    }

    /** `fetchUsers`: a successful query replaces the list (`data || []`). */
    method FetchUsers(reply: Remote<Option<seq<UserProfile>>>)
      modifies this
      ensures reply.Returned? ==> users == ListOrEmpty(reply.row)
      ensures reply.StoreError? ==> users == old(users)
      ensures selectedUser == old(selectedUser) && userEducation == old(userEducation)
      ensures userExperience == old(userExperience)
    {
      if reply.Returned? {
        users := ListOrEmpty(reply.row);
      }
    }

    /** `handleUserSelect`: the row is marked selected first; each detail query then fills its
        own list when it succeeds. */
    method HandleUserSelect(userId: string, education: Remote<Option<seq<Education>>>,
                            experience: Remote<Option<seq<WorkExperience>>>)
      modifies this
      ensures selectedUser == Some(userId)
      ensures education.Returned? ==> userEducation == ListOrEmpty(education.row)
      ensures education.StoreError? ==> userEducation == old(userEducation)
      ensures experience.Returned? ==> userExperience == ListOrEmpty(experience.row)
      ensures experience.StoreError? ==> userExperience == old(userExperience)
      ensures users == old(users)
    {
      selectedUser := Some(userId);
      if education.Returned? {
        userEducation := ListOrEmpty(education.row);
      }
      if experience.Returned? {
        userExperience := ListOrEmpty(experience.row);
      }
    }

    /** `handleDeleteUser`: nothing happens without confirmation; otherwise the whole cascade is
        issued whatever the three row deletions return, and only the identity deletion decides.
        On success the user leaves the table, the selection clears and both detail lists empty;
        on failure the local state is untouched and an alert is shown. */
    method HandleDeleteUser(userId: string, confirmed: bool, authDeleted: Outcome)
      returns (steps: seq<DeleteStep>, alerted: bool)
      modifies this
      ensures !confirmed ==> steps == [] && !alerted
      ensures confirmed ==> steps == Cascade(userId)
      ensures confirmed && authDeleted == Success ==>
        && users == WithoutUser(old(users), userId) && selectedUser == None
        && userEducation == [] && userExperience == [] && !alerted
      ensures !(confirmed && authDeleted == Success) ==>
        && users == old(users) && selectedUser == old(selectedUser)
        && userEducation == old(userEducation) && userExperience == old(userExperience)
      ensures confirmed && authDeleted == Failure ==> alerted
    {
      if !confirmed {
        return [], false;
      }
      steps := [];
      steps := steps + [DeleteEducationRows(userId)];
      steps := steps + [DeleteWorkExperienceRows(userId)];
      steps := steps + [DeleteProfileRow(userId)];
      steps := steps + [DeleteAuthUser(userId)];
      if authDeleted == Failure {
        return steps, true;
      }
      users := WithoutUser(users, userId);
      selectedUser := None;
      userEducation := [];
      userExperience := [];
      alerted := false;
    }
  }
}
