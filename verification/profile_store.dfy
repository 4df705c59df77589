/**
 * The route handlers of `routes/api/profile.js` that read and write the
 * profile collection, over a store modelled as a map from user id to
 * profile document. The authenticated user id, the identifier the store
 * gives a new experience entry and the kind of error a failing query
 * raises are parameters.
 */
module ProfileRoutes {
  import opened Wrappers
  import opened Profiles

  class ProfileStore {
    /** The profile collection, keyed by the owning user. */
    var profiles: map<UserId, Profile>

    /** Each stored profile is filed under its own user (one profile per user). */
    ghost predicate Valid()
      reads this
    {
      forall u :: u in profiles ==> profiles[u].user == u
    }

    constructor ()
      ensures Valid() && profiles == map[]
    {
      profiles := map[];
    }

    /**
     * Create or update the caller's profile. A request missing `status` or
     * `skills` is answered with the error list and the store is not
     * touched; otherwise the built document is `$set` over the caller's
     * profile, or inserted when there is none, and the result is returned.
     */
    method CreateOrUpdate(user: UserId, req: ProfileRequest) returns (resp: Response)
      requires Valid()
      modifies this
      ensures Valid()
      ensures ValidateProfile(req) != [] ==>
        resp == Invalid(ValidateProfile(req)) && profiles == old(profiles)
      ensures ValidateProfile(req) == [] ==>
        && profiles == Upsert(old(profiles), user, BuildFields(user, req))
        && resp == Ok(profiles[user])
    {
      var errors := ValidateProfile(req);
      if errors != [] {
        return Invalid(errors);
      }
      var fields := BuildFields(user, req);
      if user in profiles {
        var updated := Merge(profiles[user], fields);
        profiles := profiles[user := updated];
        return Ok(updated);
      }
      var created := NewProfile(fields);
      profiles := profiles[user := created];
      resp := Ok(created);
    }

    /**
     * Add an experience entry to the caller's profile. A failed validation
     * answers 400 but, as written, does not stop the handler: the entry is
     * still put first in the list and saved. With no profile, reading its
     * `experience` fails and the answer is a server error (unless the 400
     * was already sent).
     */
    method AddExperience(user: UserId, req: ExperienceRequest, newId: EntryId) returns (resp: Response)
      requires Valid()
      modifies this
      ensures Valid()
      ensures user !in old(profiles) ==> profiles == old(profiles)
      ensures user in old(profiles) ==>
        profiles == old(profiles)[user := WithExperience(old(profiles)[user], NewExperience(newId, req))]
      ensures ValidateExperience(req) != [] ==> resp == Invalid(ValidateExperience(req))
      ensures ValidateExperience(req) == [] ==>
        resp == if user in profiles then Ok(profiles[user]) else ServerError(ServerErrorText)
    {
      var errors := ValidateExperience(req);
      var sent := errors != [];
      if sent {
        resp := Invalid(errors);
      }
      var entry := NewExperience(newId, req);
      if user !in profiles {
        if !sent {
          resp := ServerError(ServerErrorText);
        }
        return;
      }
      var updated := WithExperience(profiles[user], entry);
      profiles := profiles[user := updated];
      if !sent {
        resp := Ok(updated);
      }
    }

    /**
     * Remove an experience entry from the caller's profile by identifier,
     * with `splice(indexOf(id), 1)`: an identifier that is not in the list
     * removes the last entry. With no profile the answer is a server error.
     */
    method DeleteExperience(user: UserId, id: EntryId) returns (resp: Response)
      requires Valid()
      modifies this
      ensures Valid()
      ensures user !in old(profiles) ==>
        profiles == old(profiles) && resp == ServerError(ServerErrorText)
      ensures user in old(profiles) ==>
        && profiles == old(profiles)[user := WithoutExperience(old(profiles)[user], id)]
        && resp == Ok(profiles[user])
    {
      if user !in profiles {
        return ServerError(ServerErrorText);
      }
      var updated := WithoutExperience(profiles[user], id);
      profiles := profiles[user := updated];
      resp := Ok(updated);
    }

    /**
     * Look up the profile of `user`. `fault` is the kind of the error the
     * query raises, if it raises one (`"ObjectId"` for a malformed id).
     */
    method ProfileOfUser(user: string, fault: Option<string>) returns (resp: Response)
      requires Valid()
      ensures fault.None? && user in profiles ==> resp == Ok(profiles[user]) && resp.profile.user == user
      ensures (fault.None? && user !in profiles) || fault == Some("ObjectId") ==>
        resp == NoProfile(NoProfileMsg)
      ensures fault.Some? && fault != Some("ObjectId") ==> resp == ServerError(ServerErrorText)
    {
      var found := if user in profiles then Some(profiles[user]) else None;
      resp := ClassifyLookup(found, fault);
    }
  }
}
