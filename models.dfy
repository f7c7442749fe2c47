/**
 * The documents the handlers read and write, and the document store as
 * three in-memory collections: users and profiles keyed by user id, posts
 * keyed by post id.
 */
module Models {
  import opened Js

  type UserId = string
  type PostId = string
  type EntryId = string

  /** A user record as the handlers see it (the password hash is never selected). */
  datatype User = User(name: string, email: string, avatar: string)

  /** The fields of an experience entry, as submitted to `PUT /profile/experience`. */
  datatype Experience = Experience(
    title: Value, company: Value, location: Value,
    from: Value, to: Value, current: bool, description: Value)

  /** The fields of an education entry, as submitted to `PUT /profile/education`. */
  datatype Education = Education(
    school: Value, degree: Value, fieldofstudy: Value,
    from: Value, to: Value, current: bool, description: Value)

  /** A sub-document of a profile's list: its generated id and its fields. */
  datatype Entry<T> = Entry(id: EntryId, item: T)

  /** The object the profile upsert builds from the request and stores. */
  datatype ProfileFields = ProfileFields(
    user: UserId, company: Value, location: Value, website: Value, bio: Value,
    skills: seq<string>, status: Value, githubusername: Value,
    social: map<string, Value>)

  /** A stored profile: its fields and its two entry lists, newest first. */
  datatype Profile = Profile(
    fields: ProfileFields,
    experience: seq<Entry<Experience>>,
    education: seq<Entry<Education>>)

  /** A profile freshly built from its fields: both entry lists start empty. */
  function NewProfile(fields: ProfileFields): Profile {
    Profile(fields, [], [])
  }

  datatype Like = Like(user: UserId)

  datatype Comment = Comment(
    id: EntryId, user: UserId, text: string, name: string, avatar: string, date: int)

  /** A post: its author's name and avatar are copied from the user record when it is created. */
  datatype Post = Post(
    id: PostId, user: UserId, text: string, name: string, avatar: string,
    likes: seq<Like>, comments: seq<Comment>, date: int)

  /** The ids of a list of entries, in list order (`list.map(item => item.id)`). */
  function Ids<T>(entries: seq<Entry<T>>): (ids: seq<EntryId>)
    ensures |ids| == |entries|
    ensures forall i :: 0 <= i < |entries| ==> ids[i] == entries[i].id
  {
    seq(|entries|, i requires 0 <= i < |entries| => entries[i].id)
  }

  /** The document store. */
  class Database {
    var users: map<UserId, User>
    var profiles: map<UserId, Profile>
    var posts: map<PostId, Post>

    /** Each profile is stored under its owner's id and each post under its own id. */
    ghost predicate Valid()
      reads this
    {
      && (forall u :: u in profiles ==> profiles[u].fields.user == u)
      && (forall id :: id in posts ==> posts[id].id == id)
    }

    /**
     * The store as the profile and post routes find it: the user records
     * registration has created, and no profiles or posts yet.
     */
    constructor (users: map<UserId, User>)
      ensures Valid()
      ensures this.users == users && profiles == map[] && posts == map[]
    {
      this.users := users;
      profiles := map[];
      posts := map[];
    }

    /** Inserts a new profile document; the owner has none yet. */
    method InsertProfile(p: Profile)
      requires Valid() && p.fields.user !in profiles
      modifies this
      ensures Valid()
      ensures profiles == old(profiles)[p.fields.user := p]
      ensures users == old(users) && posts == old(posts)
    {
      profiles := profiles[p.fields.user := p];
    }

    /** Saves a changed copy of a profile already in the store. */
    method SaveProfile(p: Profile)
      requires Valid() && p.fields.user in profiles
      modifies this
      ensures Valid()
      ensures profiles == old(profiles)[p.fields.user := p]
      ensures users == old(users) && posts == old(posts)
    {
      profiles := profiles[p.fields.user := p];
    }

    /** Removes the profile of user `u`, if there is one (`deleteOne`, `findOneAndRemove`). */
    method RemoveProfile(u: UserId) returns (removed: bool)
      requires Valid()
      modifies this
      ensures Valid()
      ensures removed == (u in old(profiles))
      ensures profiles == old(profiles) - {u}
      ensures users == old(users) && posts == old(posts)
    {
      removed := u in profiles;
      profiles := profiles - {u};
    }

    /** Removes the user record `u`, if there is one (`findByIdAndRemove`). */
    method RemoveUser(u: UserId) returns (removed: bool)
      requires Valid()
      modifies this
      ensures Valid()
      ensures removed == (u in old(users))
      ensures users == old(users) - {u}
      ensures profiles == old(profiles) && posts == old(posts)
    {
      removed := u in users;
      users := users - {u};
    }

    /** Inserts a new post under a fresh id. */
    method InsertPost(p: Post)
      requires Valid() && p.id !in posts
      modifies this
      ensures Valid()
      ensures posts == old(posts)[p.id := p]
      ensures users == old(users) && profiles == old(profiles)
    {
      posts := posts[p.id := p];
    }

    /** Removes the post with id `id` (`post.remove()`). */
    method RemovePost(id: PostId)
      requires Valid()
      modifies this
      ensures Valid()
      ensures posts == old(posts) - {id}
      ensures users == old(users) && profiles == old(profiles)
    {
      posts := posts - {id};
    }
  }
}
