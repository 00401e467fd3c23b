/**
 * The request handlers of the profile routes over an in-memory document store: profiles keyed
 * by their owner, users keyed by `_id`, and the posts collection. The authenticated requester
 * is the `user` parameter each handler receives.
 */
module ProfileRoutes {
  import opened Basics
  import opened Validation
  import opened EmbeddedList
  import opened ProfileModel

  datatype User = User(name: string, avatar: string)

  /** A post document; only its owner matters here. */
  datatype Post = Post(id: PostId, user: UserId)

  /** What a handler sends: `res.json(profile)`, `{errors}`, `{msg}` or plain text. */
  datatype Body = ProfileJson(profile: Profile) | ErrorsJson(errors: seq<FieldError>)
                | MsgJson(msg: string) | Text(text: string)

  datatype Response = Response(status: nat, body: Body)

  /** The posts `Post.deleteMany({user})` leaves: those of every other owner, in order. */
  function WithoutPostsOf(posts: seq<Post>, user: UserId): (r: seq<Post>)
    ensures forall p :: p in r <==> p in posts && p.user != user
    ensures |r| <= |posts|
  {
    if posts == [] then []
    else
      var rest := WithoutPostsOf(posts[1..], user);
      if posts[0].user == user then rest else [posts[0]] + rest
  }

  /** The posts of one owner, in collection order. */
  function PostsOf(posts: seq<Post>, user: UserId): seq<Post> {
    if posts == [] then []
    else (if posts[0].user == user then [posts[0]] else []) + PostsOf(posts[1..], user)
  }

  /** Deleting one owner's posts leaves none of them and keeps every other owner's posts as they were. */
  lemma {:induction false} WithoutPostsOfKeepsOthers(posts: seq<Post>, user: UserId, other: UserId)
    ensures PostsOf(WithoutPostsOf(posts, user), user) == []
    ensures other != user ==> PostsOf(WithoutPostsOf(posts, user), other) == PostsOf(posts, other)
  {
    if posts != [] {
      WithoutPostsOfKeepsOthers(posts[1..], user, other);
      var rest := WithoutPostsOf(posts[1..], user);
      if posts[0].user != user {
        assert ([posts[0]] + rest)[1..] == rest;
      }
    }
  }

  const InternalError := "Internal Server Error"

  class Store {
    var profiles: map<UserId, Profile>
    var users: map<UserId, User>
    var posts: seq<Post>

    /** Every profile is stored under its own `user`: at most one profile per user. */
    ghost predicate Valid()
      reads this
    {
      forall u :: u in profiles ==> profiles[u].user == u
    }

    constructor (users0: map<UserId, User>, posts0: seq<Post>)
      ensures Valid()
      ensures profiles == map[] && users == users0 && posts == posts0
    {
      profiles := map[];
      users := users0;
      posts := posts0;
    }

    /** GET /me: the requester's profile, or 400 when there is none. */
    method GetMe(user: UserId) returns (r: Response)
      requires Valid()
      ensures r.status == 200 ==> r.body.ProfileJson? && r.body.profile.user == user
      ensures user in profiles ==> r == Response(200, ProfileJson(profiles[user]))
      ensures user !in profiles ==> r == Response(400, MsgJson("There is no profile for this user."))
    {
      if user in profiles {
        r := Response(200, ProfileJson(profiles[user]));
      } else {
        r := Response(400, MsgJson("There is no profile for this user."));
      }
    }

    /** GET /user/:user_id: the profile of any user, or 400 when there is none. */
    method GetByUserId(target: UserId) returns (r: Response)
      requires Valid()
      ensures r.status == 200 ==> r.body.ProfileJson? && r.body.profile.user == target
      ensures target in profiles ==> r == Response(200, ProfileJson(profiles[target]))
      ensures target !in profiles ==> r == Response(400, MsgJson("Profile Not Found."))
    {
      if target in profiles {
        r := Response(200, ProfileJson(profiles[target]));
      } else {
        r := Response(400, MsgJson("Profile Not Found."));
      }
    }

    /**
     * POST /: reject with every failed check, or update the requester's profile with
     * `$set`, or create it; in both success cases the stored profile is returned.
     */
    method Upsert(user: UserId, b: ProfileRequest) returns (r: Response)
      requires Valid()
      modifies this
      ensures Valid()
      ensures users == old(users) && posts == old(posts)
      ensures Errors(ProfileChecks(b)) != [] ==>
        r == Response(400, ErrorsJson(Errors(ProfileChecks(b)))) && profiles == old(profiles)
      ensures Errors(ProfileChecks(b)) == [] ==>
        && user in profiles
        && profiles == old(profiles)[user := profiles[user]]
        && profiles[user] == (if user in old(profiles) then SetFields(old(profiles)[user], FieldsFor(user, b))
                              else NewProfile(FieldsFor(user, b)))
        && r == Response(200, ProfileJson(profiles[user]))
    {
      var errors := Errors(ProfileChecks(b));
      if errors != [] {
        return Response(400, ErrorsJson(errors));
      }
      var fields := BuildProfileFields(user, b);
      if user in profiles {
        var updated := SetFields(profiles[user], fields);
        profiles := profiles[user := updated];
        return Response(200, ProfileJson(updated));
      }
      var created := NewProfile(fields);
      profiles := profiles[user := created];
      r := Response(200, ProfileJson(created));
    }

    /** DELETE /: remove the requester's posts, then the profile, then the user. */
    method DeleteAccount(user: UserId) returns (r: Response)
      requires Valid()
      modifies this
      ensures Valid()
      ensures posts == WithoutPostsOf(old(posts), user)
      ensures profiles == old(profiles) - {user}
      ensures users == old(users) - {user}
      ensures r == Response(200, MsgJson("User deleted!"))
    {
      posts := WithoutPostsOf(posts, user);
      profiles := profiles - {user};
      users := users - {user};
      r := Response(200, MsgJson("User deleted!"));
    }

    /**
     * PUT /experience: reject with every failed check; otherwise put the new record, with
     * the fresh id the store assigns, at the front of the requester's experience list. With no
     * profile to add to, the handler fails on `null` and answers 500.
     */
    method AddExperience(user: UserId, b: ExperienceFields, freshId: RecordId) returns (r: Response)
      requires Valid()
      modifies this
      ensures Valid()
      ensures users == old(users) && posts == old(posts)
      ensures Errors(ExperienceChecks(b)) != [] ==>
        r == Response(400, ErrorsJson(Errors(ExperienceChecks(b)))) && profiles == old(profiles)
      ensures Errors(ExperienceChecks(b)) == [] && user !in old(profiles) ==>
        r == Response(500, Text(InternalError)) && profiles == old(profiles)
      ensures Errors(ExperienceChecks(b)) == [] && user in old(profiles) ==>
        var p := old(profiles)[user];
        && profiles == old(profiles)[user := p.(experience := [Entry(freshId, b)] + p.experience)]
        && r == Response(200, ProfileJson(profiles[user]))
    {
      var errors := Errors(ExperienceChecks(b));
      if errors != [] {
        return Response(400, ErrorsJson(errors));
      }
      if user !in profiles {
        return Response(500, Text(InternalError));
      }
      var p := profiles[user];
      p := p.(experience := [Entry(freshId, b)] + p.experience);
      profiles := profiles[user := p];
      r := Response(200, ProfileJson(p));
    }

    /**
     * DELETE /experience/:exp_id: 400 when no record has the id; otherwise `splice` the
     * record at the first index of the id. With no profile the handler answers 500.
     */
    method RemoveExperience(user: UserId, id: RecordId) returns (r: Response)
      requires Valid()
      modifies this
      ensures Valid()
      ensures users == old(users) && posts == old(posts)
      ensures user !in old(profiles) ==>
        r == Response(500, Text(InternalError + ".")) && profiles == old(profiles)
      ensures user in old(profiles) && id !in Ids(old(profiles)[user].experience) ==>
        r == Response(400, MsgJson("Profile Not Found!")) && profiles == old(profiles)
      ensures user in old(profiles) && id in Ids(old(profiles)[user].experience) ==>
        var p := old(profiles)[user];
        var i := IndexOf(Ids(p.experience), id);
        && profiles == old(profiles)[user := p.(experience := Splice(p.experience, i))]
        && r == Response(200, ProfileJson(profiles[user]))
    {
      if user !in profiles {
        return Response(500, Text(InternalError + "."));
      }
      var p := profiles[user];
      var ids := Ids(p.experience);
      if id !in ids {
        return Response(400, MsgJson("Profile Not Found!"));
      }
      var removeIndex := IndexOf(ids, id);
      p := p.(experience := Splice(p.experience, removeIndex));
      profiles := profiles[user := p];
      r := Response(200, ProfileJson(p));
    }

    /** PUT /education: as AddExperience, for the education list and its checks. */
    method AddEducation(user: UserId, b: EducationFields, freshId: RecordId) returns (r: Response)
      requires Valid()
      modifies this
      ensures Valid()
      ensures users == old(users) && posts == old(posts)
      ensures Errors(EducationChecks(b)) != [] ==>
        r == Response(400, ErrorsJson(Errors(EducationChecks(b)))) && profiles == old(profiles)
      ensures Errors(EducationChecks(b)) == [] && user !in old(profiles) ==>
        r == Response(500, Text(InternalError)) && profiles == old(profiles)
      ensures Errors(EducationChecks(b)) == [] && user in old(profiles) ==>
        var p := old(profiles)[user];
        && profiles == old(profiles)[user := p.(education := [Entry(freshId, b)] + p.education)]
        && r == Response(200, ProfileJson(profiles[user]))
    {
      var errors := Errors(EducationChecks(b));
      if errors != [] {
        return Response(400, ErrorsJson(errors));
      }
      if user !in profiles {
        return Response(500, Text(InternalError));
      }
      var p := profiles[user];
      p := p.(education := [Entry(freshId, b)] + p.education);
      profiles := profiles[user := p];
      r := Response(200, ProfileJson(p));
    }

    /** DELETE /education/:edu_id: as RemoveExperience, for the education list. */
    method RemoveEducation(user: UserId, id: RecordId) returns (r: Response)
      requires Valid()
      modifies this
      ensures Valid()
      ensures users == old(users) && posts == old(posts)
      ensures user !in old(profiles) ==>
        r == Response(500, Text(InternalError + ".")) && profiles == old(profiles)
      ensures user in old(profiles) && id !in Ids(old(profiles)[user].education) ==>
        r == Response(400, MsgJson("Profile Not Found!")) && profiles == old(profiles)
      ensures user in old(profiles) && id in Ids(old(profiles)[user].education) ==>
        var p := old(profiles)[user];
        var i := IndexOf(Ids(p.education), id);
        && profiles == old(profiles)[user := p.(education := Splice(p.education, i))]
        && r == Response(200, ProfileJson(profiles[user]))
    {
      if user !in profiles {
        return Response(500, Text(InternalError + "."));
      }
      var p := profiles[user];
      var ids := Ids(p.education);
      if id !in ids {
        return Response(400, MsgJson("Profile Not Found!"));
      }
      var removeIndex := IndexOf(ids, id);
      p := p.(education := Splice(p.education, removeIndex));
      profiles := profiles[user := p];
      r := Response(200, ProfileJson(p));
    }
  }

  /** Two accepted additions in a row: the later record is at index 0, the earlier at index 1. */
  method AddTwiceNewestFirst(s: Store, user: UserId, a: ExperienceFields, idA: RecordId,
                             b: ExperienceFields, idB: RecordId)
    requires s.Valid() && user in s.profiles
    requires Errors(ExperienceChecks(a)) == [] && Errors(ExperienceChecks(b)) == []
    modifies s
    ensures s.Valid()
    ensures user in s.profiles
    ensures s.profiles[user].experience == [Entry(idB, b), Entry(idA, a)] + old(s.profiles[user].experience)
  {
    var r1 := s.AddExperience(user, a, idA);
    var r2 := s.AddExperience(user, b, idB);
  }

  /** After the account is deleted, asking for the own profile finds none. */
  method DeleteThenGetMe(s: Store, user: UserId) returns (r: Response)
    requires s.Valid()
    modifies s
    ensures r == Response(400, MsgJson("There is no profile for this user."))
    ensures user !in s.users && PostsOf(s.posts, user) == []
  {
    var d := s.DeleteAccount(user);
    WithoutPostsOfKeepsOthers(old(s.posts), user, user);
    r := s.GetMe(user);
  }
}
