/**
 * The profile logic of `routes/api/profile.js`: request validation, the
 * document the create-or-update handler builds, how that document is
 * applied to the store (`$set` over an existing profile or a new insert),
 * the experience list edits and the classification of a lookup by user id.
 */
module Profiles {
  import opened Wrappers
  import opened Strings

  type UserId = string
  type EntryId = string

  /**
   * JavaScript truthiness of a request string: present and not empty. For a
   * string this is also what the validator's `not().isEmpty()` accepts.
   */
  predicate Truthy(v: Option<string>) {
    v.Some? && v.value != ""
  }

  /** `out` holds the input exactly when the input is truthy, and nothing otherwise. */
  predicate CopiedIfTruthy(out: Option<string>, input: Option<string>) {
    && (out.Some? <==> Truthy(input))
    && (out.Some? ==> out == input)
  }

  /** A `$set` key: written when the update carries it, kept otherwise. */
  predicate SetOrKept<T(==)>(result: Option<T>, update: Option<T>, stored: Option<T>) {
    && (update.Some? ==> result == update)
    && (update.None? ==> result == stored)
  }

  /** The body of the create-or-update request; every key may be missing. */
  datatype ProfileRequest = ProfileRequest(
    company: Option<string>, website: Option<string>, location: Option<string>,
    bio: Option<string>, status: Option<string>, githubusername: Option<string>,
    skills: Option<string>,
    youtube: Option<string>, facebook: Option<string>, twitter: Option<string>,
    instagram: Option<string>, linkedin: Option<string>)

  /** The `social` sub-object; a missing link is `None`. */
  datatype Social = Social(
    youtube: Option<string>, facebook: Option<string>, twitter: Option<string>,
    instagram: Option<string>, linkedin: Option<string>)

  const NoLinks: Social := Social(None, None, None, None, None)

  /** The `userProfile` object the handler builds before touching the store. */
  datatype ProfileFields = ProfileFields(
    user: UserId,
    company: Option<string>, website: Option<string>, location: Option<string>,
    bio: Option<string>, status: Option<string>, githubusername: Option<string>,
    skills: Option<seq<string>>,
    social: Social)

  /** The body of the add-experience request. */
  datatype ExperienceRequest = ExperienceRequest(
    title: Option<string>, company: Option<string>, location: Option<string>,
    from: Option<string>, to: Option<string>, current: Option<bool>,
    description: Option<string>)

  /** One experience entry; `id` is the identifier the store assigns to it. */
  datatype Experience = Experience(
    id: EntryId,
    title: Option<string>, company: Option<string>, location: Option<string>,
    from: Option<string>, to: Option<string>, current: Option<bool>,
    description: Option<string>)

  /** A stored profile document. */
  datatype Profile = Profile(
    user: UserId,
    company: Option<string>, website: Option<string>, location: Option<string>,
    bio: Option<string>, status: Option<string>, githubusername: Option<string>,
    skills: Option<seq<string>>,
    social: Social,
    experience: seq<Experience>)

  /** One entry of the validator's error list. */
  datatype FieldError = FieldError(param: string, msg: string)

  /** What a handler sends back. */
  datatype Response =
    | Ok(profile: Profile)                // 200 with the profile document
    | Invalid(errors: seq<FieldError>)    // 400 with the validation errors
    | NoProfile(msg: string)              // 400 with a message
    | ServerError(text: string)           // 500

  const NoProfileMsg := "There is no profile for this user."
  const ServerErrorText := "Server Error"

  // ---------------------------------------------------------------------
  // Validation

  /** One `check(param, msg).not().isEmpty()` rule. */
  function Check(v: Option<string>, param: string, msg: string): (errors: seq<FieldError>)
    ensures errors == [] <==> Truthy(v)
    ensures |errors| <= 1 && forall e :: e in errors ==> e == FieldError(param, msg)
  {
    if Truthy(v) then [] else [FieldError(param, msg)]
  }

  /** 1 when the rule on `v` fails, 0 when it passes. */
  function Missing(v: Option<string>): nat {
    if Truthy(v) then 0 else 1
  }

  /**
   * `errors` lists only rules of `rules`, each at most once, in the order
   * the rules are declared.
   */
  predicate InRuleOrder(errors: seq<FieldError>, rules: seq<FieldError>) {
    && (forall e :: e in errors ==> e in rules)
    && (forall i, j :: 0 <= i < j < |errors| ==> IndexOf(rules, errors[i]) < IndexOf(rules, errors[j]))
  }

  const StatusRequired := FieldError("status", "Status is required")
  const SkillsRequired := FieldError("skills", "Skills are required")
  const ProfileRules := [StatusRequired, SkillsRequired]

  /** The two rules of the create-or-update route, in declaration order. */
  function ValidateProfile(req: ProfileRequest): (errors: seq<FieldError>)
    ensures errors == [] <==> Truthy(req.status) && Truthy(req.skills)
    ensures StatusRequired in errors <==> !Truthy(req.status)
    ensures SkillsRequired in errors <==> !Truthy(req.skills)
    ensures |errors| == Missing(req.status) + Missing(req.skills)
    ensures InRuleOrder(errors, ProfileRules)
  {
    Check(req.status, "status", "Status is required")
      + Check(req.skills, "skills", "Skills are required")
  }

  const TitleRequired := FieldError("title", "Title is required")
  const CompanyRequired := FieldError("company", "Company is required")
  const FromRequired := FieldError("from", "From date is required")
  const ExperienceRules := [TitleRequired, CompanyRequired, FromRequired]

  /** The three rules of the add-experience route, in declaration order. */
  function ValidateExperience(req: ExperienceRequest): (errors: seq<FieldError>)
    ensures errors == [] <==> Truthy(req.title) && Truthy(req.company) && Truthy(req.from)
    ensures TitleRequired in errors <==> !Truthy(req.title)
    ensures CompanyRequired in errors <==> !Truthy(req.company)
    ensures FromRequired in errors <==> !Truthy(req.from)
    ensures |errors| == Missing(req.title) + Missing(req.company) + Missing(req.from)
    ensures InRuleOrder(errors, ExperienceRules)
  {
    Check(req.title, "title", "Title is required")
      + Check(req.company, "company", "Company is required")
      + Check(req.from, "from", "From date is required")
  }

  // ---------------------------------------------------------------------
  // Building the document

  /** `skills.split(',').map(skill => skill.trim())`. */
  function ParseSkills(skills: string): (r: seq<string>)
    ensures |r| == Count(skills, ',') + 1
    ensures forall i :: 0 <= i < |r| ==> Trimmed(r[i]) && ',' !in r[i]
  {
    var pieces := Split(skills, ',');
    SplitCount(skills, ',');
    seq(|pieces|, i requires 0 <= i < |pieces| => Trim(pieces[i]))
  }

  /**
   * The `social` object, built as the handler does: starting empty, each
   * truthy link is assigned in turn, `youtube` a second time at the end.
   */
  function BuildSocial(req: ProfileRequest): (s: Social)
    ensures CopiedIfTruthy(s.youtube, req.youtube)
    ensures CopiedIfTruthy(s.facebook, req.facebook)
    ensures CopiedIfTruthy(s.twitter, req.twitter)
    ensures CopiedIfTruthy(s.instagram, req.instagram)
    ensures CopiedIfTruthy(s.linkedin, req.linkedin)
  {
    var s0 := NoLinks;
    var s1 := if Truthy(req.youtube) then s0.(youtube := req.youtube) else s0;
    var s2 := if Truthy(req.facebook) then s1.(facebook := req.facebook) else s1;
    var s3 := if Truthy(req.twitter) then s2.(twitter := req.twitter) else s2;
    var s4 := if Truthy(req.instagram) then s3.(instagram := req.instagram) else s3;
    var s5 := if Truthy(req.linkedin) then s4.(linkedin := req.linkedin) else s4;
    if Truthy(req.youtube) then s5.(youtube := req.youtube) else s5
  }

  /** The `userProfile` object: `user`, every truthy field, the parsed skills, `social`. */
  function BuildFields(user: UserId, req: ProfileRequest): (d: ProfileFields)
    ensures d.user == user
    ensures CopiedIfTruthy(d.company, req.company)
    ensures CopiedIfTruthy(d.website, req.website)
    ensures CopiedIfTruthy(d.location, req.location)
    ensures CopiedIfTruthy(d.bio, req.bio)
    ensures CopiedIfTruthy(d.status, req.status)
    ensures CopiedIfTruthy(d.githubusername, req.githubusername)
    ensures d.skills.Some? <==> Truthy(req.skills)
    ensures d.skills.Some? ==> d.skills.value == ParseSkills(req.skills.value)
    ensures d.social == BuildSocial(req)
  {
    ProfileFields(
      user,
      if Truthy(req.company) then req.company else None,
      if Truthy(req.website) then req.website else None,
      if Truthy(req.location) then req.location else None,
      if Truthy(req.bio) then req.bio else None,
      if Truthy(req.status) then req.status else None,
      if Truthy(req.githubusername) then req.githubusername else None,
      if Truthy(req.skills) then Some(ParseSkills(req.skills.value)) else None,
      BuildSocial(req))
  }

  /**
   * Each parsed skill is its comma-separated piece of the input with only
   * whitespace removed from its ends: the input is the comma-join of
   * `pre[i] + r[i] + post[i]` with every `pre[i]` and `post[i]` whitespace.
   */
  lemma {:induction false} ParseSkillsPieces(skills: string) returns (pre: seq<string>, post: seq<string>)
    ensures |pre| == |ParseSkills(skills)| == |post|
    ensures forall i :: 0 <= i < |pre| ==> AllSpace(pre[i]) && AllSpace(post[i])
    ensures var r := ParseSkills(skills);
      Join(seq(|r|, i requires 0 <= i < |r| => pre[i] + r[i] + post[i]), ',') == skills
  {
    var pieces := Split(skills, ',');
    var r := ParseSkills(skills);
    assert |r| == |pieces| && forall i :: 0 <= i < |r| ==> r[i] == Trim(pieces[i]);
    pre := seq(|pieces|, i requires 0 <= i < |pieces| => LeadingSpace(pieces[i]));
    post := seq(|pieces|, i requires 0 <= i < |pieces| => TrailingSpace(pieces[i]));
    forall i | 0 <= i < |pieces|
      ensures AllSpace(pre[i]) && AllSpace(post[i]) && pieces[i] == pre[i] + r[i] + post[i]
    {
      TrimDecomposes(pieces[i]);
    }
    var joined := seq(|r|, i requires 0 <= i < |r| => pre[i] + r[i] + post[i]);
    assert forall i :: 0 <= i < |r| ==> joined[i] == pieces[i];
    assert joined == pieces;
    JoinSplit(skills, ',');
  }

  /** A request that passed validation always yields `status` and `skills`. */
  lemma ValidatedFieldsHaveRequired(user: UserId, req: ProfileRequest)
    requires ValidateProfile(req) == []
    ensures BuildFields(user, req).status == req.status
    ensures BuildFields(user, req).skills == Some(ParseSkills(req.skills.value))
  {
  }

  /** The documented example: `"js, node "` is stored as `["js", "node"]`. */
  lemma SkillsExample()
    ensures ParseSkills("js, node ") == ["js", "node"]
  {
    ExampleSplit();
    var r := ParseSkills("js, node ");
    assert r[0] == Trim("js") && r[1] == Trim(" node ");
    ExampleTrims();
    PairOf(r, "js", "node");
  }

  lemma ExampleSplit()
    ensures Split("js, node ", ',') == ["js", " node "]
  {
    assert "js, node " == "js" + [','] + " node ";
    SplitAfterWord("js", ',', " node ");
    SplitWord(" node ", ',');
  }

  lemma ExampleTrims()
    ensures Trim("js") == "js" && Trim(" node ") == "node"
  {
    TrimmedIsFixed("js");
    assert " node " == " " + "node" + " ";
    TrimSurrounded(" ", "node", " ");
  }

  lemma PairOf(r: seq<string>, a: string, b: string)
    requires |r| == 2 && r[0] == a && r[1] == b
    ensures r == [a, b]
  {
  }

  /** Skills written as a comma-separated list of trimmed words parse back to that list. */
  lemma {:induction false} SkillsRoundTrip(skills: seq<string>)
    requires |skills| >= 1
    requires forall i :: 0 <= i < |skills| ==> Trimmed(skills[i]) && ',' !in skills[i]
    ensures ParseSkills(Join(skills, ',')) == skills
  {
    SplitJoin(skills, ',');
    forall i | 0 <= i < |skills| ensures Trim(skills[i]) == skills[i] {
      TrimmedIsFixed(skills[i]);
    }
  }

  // ---------------------------------------------------------------------
  // Applying the document to the store

  /** `new Profile(userProfile)`: the document as built, with no experience yet. */
  function NewProfile(d: ProfileFields): (p: Profile)
    ensures Fields(p) == d && p.experience == []
  {
    Profile(d.user, d.company, d.website, d.location, d.bio, d.status,
            d.githubusername, d.skills, d.social, [])
  }

  /** The part of a stored profile that the create-or-update request can write. */
  function Fields(p: Profile): ProfileFields {
    ProfileFields(p.user, p.company, p.website, p.location, p.bio, p.status,
                  p.githubusername, p.skills, p.social)
  }

  /**
   * `{ $set: userProfile }` over a stored profile: each top-level key the
   * document carries overwrites the stored one, absent keys keep their
   * stored value, and `social` (always carried) is replaced as a whole.
   */
  function Merge(p: Profile, d: ProfileFields): (r: Profile)
    ensures r.user == d.user
    ensures SetOrKept(r.company, d.company, p.company)
    ensures SetOrKept(r.website, d.website, p.website)
    ensures SetOrKept(r.location, d.location, p.location)
    ensures SetOrKept(r.bio, d.bio, p.bio)
    ensures SetOrKept(r.status, d.status, p.status)
    ensures SetOrKept(r.githubusername, d.githubusername, p.githubusername)
    ensures SetOrKept(r.skills, d.skills, p.skills)
    ensures r.social == d.social
    ensures r.experience == p.experience
  {
    Profile(
      d.user,
      if d.company.Some? then d.company else p.company,
      if d.website.Some? then d.website else p.website,
      if d.location.Some? then d.location else p.location,
      if d.bio.Some? then d.bio else p.bio,
      if d.status.Some? then d.status else p.status,
      if d.githubusername.Some? then d.githubusername else p.githubusername,
      if d.skills.Some? then d.skills else p.skills,
      d.social,
      p.experience)
  }

  /** An empty profile of `user`, holding nothing but the owner. */
  function Blank(user: UserId): Profile {
    Profile(user, None, None, None, None, None, None, None, NoLinks, [])
  }

  /** Inserting a new profile is the same as `$set` over an empty one. */
  lemma InsertIsMergeIntoBlank(d: ProfileFields)
    ensures NewProfile(d) == Merge(Blank(d.user), d)
  {
  }

  /** Repeating the same update changes nothing more. */
  lemma MergeIdempotent(p: Profile, d: ProfileFields)
    ensures Merge(Merge(p, d), d) == Merge(p, d)
  {
  }

  /** An update never clears a stored top-level field, whatever the request omits. */
  lemma UpdateKeepsTopLevelFields(p: Profile, user: UserId, req: ProfileRequest)
    ensures var r := Merge(p, BuildFields(user, req));
      && (p.company.Some? ==> r.company.Some?)
      && (p.website.Some? ==> r.website.Some?)
      && (p.location.Some? ==> r.location.Some?)
      && (p.bio.Some? ==> r.bio.Some?)
      && (p.status.Some? ==> r.status.Some?)
      && (p.githubusername.Some? ==> r.githubusername.Some?)
      && (p.skills.Some? ==> r.skills.Some?)
  {
  }

  /**
   * Social links, unlike top-level fields, are dropped: a stored link that
   * the request does not repeat is gone after the update.
   */
  lemma UpdateDropsOmittedLinks(p: Profile, user: UserId, req: ProfileRequest)
    ensures var r := Merge(p, BuildFields(user, req));
      && (!Truthy(req.youtube) ==> r.social.youtube == None)
      && (!Truthy(req.facebook) ==> r.social.facebook == None)
      && (!Truthy(req.twitter) ==> r.social.twitter == None)
      && (!Truthy(req.instagram) ==> r.social.instagram == None)
      && (!Truthy(req.linkedin) ==> r.social.linkedin == None)
  {
  }

  /** The stored value after a create-or-update of `user` with document `d`. */
  function Upsert(profiles: map<UserId, Profile>, user: UserId, d: ProfileFields): (r: map<UserId, Profile>)
    ensures r.Keys == profiles.Keys + {user}
    ensures forall u :: u in profiles && u != user ==> r[u] == profiles[u]
    ensures user in profiles ==> r[user] == Merge(profiles[user], d)
    ensures user !in profiles ==> r[user] == NewProfile(d)
  {
    profiles[user := if user in profiles then Merge(profiles[user], d) else NewProfile(d)]
  }

  // ---------------------------------------------------------------------
  // The experience list

  /** The request fields an experience entry carries. */
  function RequestOf(e: Experience): ExperienceRequest {
    ExperienceRequest(e.title, e.company, e.location, e.from, e.to, e.current, e.description)
  }

  /**
   * The `updatedExp` object, with the identifier the store gives it: every
   * request field is copied as is, present or not.
   */
  function NewExperience(id: EntryId, req: ExperienceRequest): (e: Experience)
    ensures e.id == id && RequestOf(e) == req
  {
    Experience(id, req.title, req.company, req.location, req.from, req.to,
               req.current, req.description)
  }

  /** `profile.experience.unshift(e)`. */
  function WithExperience(p: Profile, e: Experience): (r: Profile)
    ensures |r.experience| == |p.experience| + 1
    ensures r.experience[0] == e
    ensures forall i :: 0 <= i < |p.experience| ==> r.experience[i + 1] == p.experience[i]
    ensures r.(experience := p.experience) == p
  {
    p.(experience := [e] + p.experience)
  }

  /** Two additions, `a` then `b`, leave `b` first and `a` second. */
  lemma AddTwice(p: Profile, a: Experience, b: Experience)
    ensures WithExperience(WithExperience(p, a), b).experience == [b, a] + p.experience
  {
    var once := WithExperience(p, a);
    assert once.experience == [a] + p.experience;
    assert WithExperience(once, b).experience == [b] + ([a] + p.experience);
  }

  /** `item => item.id` mapped over the list. */
  function Ids(es: seq<Experience>): (ids: seq<EntryId>)
    ensures |ids| == |es| && forall i :: 0 <= i < |es| ==> ids[i] == es[i].id
  {
    seq(|es|, i requires 0 <= i < |es| => es[i].id)
  }

  /** `Array.prototype.indexOf`: the first position holding `x`, or -1. */
  function IndexOf<T(==)>(xs: seq<T>, x: T): (i: int)
    ensures -1 <= i < |xs|
    ensures i == -1 <==> x !in xs
    ensures 0 <= i ==> xs[i] == x && forall k :: 0 <= k < i ==> xs[k] != x
  {
    if xs == [] then -1
    else if xs[0] == x then 0
    else
      var j := IndexOf(xs[1..], x);
      if j == -1 then -1 else j + 1
  }

  /**
   * `Array.prototype.splice(start, 1)` on `s`: a negative start counts from
   * the end (clamped at 0), a start past the end removes nothing.
   */
  function SpliceOne<T>(s: seq<T>, start: int): (r: seq<T>)
    ensures -|s| <= start < |s| ==>
      var k := if start < 0 then |s| + start else start;
      |r| == |s| - 1 && r == s[..k] + s[k + 1..]
    ensures start >= |s| ==> r == s
    ensures start < -|s| ==> r == if s == [] then [] else s[1..]
  {
    if start >= |s| then s
    else if start >= 0 then s[..start] + s[start + 1..]
    else if start >= -|s| then s[..|s| + start] + s[|s| + start + 1..]
    else if s == [] then []
    else s[1..]
  }

  /** Position `i` holds the first entry whose identifier is `id`. */
  predicate FirstWithId(es: seq<Experience>, id: EntryId, i: int) {
    && 0 <= i < |es| && es[i].id == id
    && forall k :: 0 <= k < i ==> es[k].id != id
  }

  /**
   * The remove-experience edit as written: `splice(indexOf(id), 1)`. The
   * first entry with that id is removed; with no such entry, `indexOf`
   * gives -1 and the last entry is removed instead.
   */
  function WithoutExperience(p: Profile, id: EntryId): (r: Profile)
    ensures r.(experience := p.experience) == p
    ensures forall i :: FirstWithId(p.experience, id, i) ==>
      r.experience == p.experience[..i] + p.experience[i + 1..]
    ensures id !in Ids(p.experience) ==>
      r.experience == if p.experience == [] then [] else p.experience[..|p.experience| - 1]
  {
    p.(experience := SpliceOne(p.experience, IndexOf(Ids(p.experience), id)))
  }

  /** The identifiers of `es` are pairwise distinct, as generated identifiers are. */
  predicate DistinctIds(es: seq<Experience>) {
    forall i, j :: 0 <= i < j < |es| ==> es[i].id != es[j].id
  }

  /** Removing an id that occurs shortens the list by exactly one. */
  lemma RemovePresentIdShortens(p: Profile, id: EntryId)
    requires id in Ids(p.experience)
    ensures |WithoutExperience(p, id).experience| == |p.experience| - 1
  {
  }

  /** With distinct identifiers, a removed id no longer occurs. */
  lemma RemovePresentIdGone(p: Profile, id: EntryId)
    requires DistinctIds(p.experience)
    requires id in Ids(p.experience)
    ensures id !in Ids(WithoutExperience(p, id).experience)
  {
  }

  /** With no entry of that id, a non-empty list loses its last entry. */
  lemma RemoveMissingIdDropsLast(p: Profile, id: EntryId)
    requires id !in Ids(p.experience)
    requires p.experience != []
    ensures WithoutExperience(p, id).experience == p.experience[..|p.experience| - 1]
    ensures |WithoutExperience(p, id).experience| == |p.experience| - 1
  {
  }

  // ---------------------------------------------------------------------
  // Looking a profile up by user id

  /**
   * The profile-by-user route's answer: the profile when the query found
   * one; the same "no profile" message when it found none and when the
   * query failed with an error of kind `ObjectId` (a malformed id); a
   * server error for any other failure. `fault` is the kind of the error the
   * query raised, if any.
   */
  function ClassifyLookup(found: Option<Profile>, fault: Option<string>): (resp: Response)
    ensures resp.Ok? <==> fault.None? && found.Some?
    ensures resp.Ok? ==> resp.profile == found.value
    ensures resp == NoProfile(NoProfileMsg) <==> (fault.None? && found.None?) || fault == Some("ObjectId")
    ensures resp == ServerError(ServerErrorText) <==> fault.Some? && fault != Some("ObjectId")
  {
    match fault
    case None => if found.Some? then Ok(found.value) else NoProfile(NoProfileMsg)
    case Some(kind) => if kind == "ObjectId" then NoProfile(NoProfileMsg) else ServerError(ServerErrorText)
  }
}
