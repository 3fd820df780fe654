/** The three collections the handlers read and write (users, profiles,
    posts) as an in-memory store, and the documents a handler loads from
    it, mutates in place and saves back. */
module Models {
  import opened Http
  import opened JsArray

  /** A document id, as the string `toString()` gives for it. */
  type Id = string

  datatype User = User(id: Id, name: string, email: string, avatar: string, password: string)

  datatype Social = Social(youtube: string, twitter: string, facebook: string, instagram: string, linkedin: string)

  /** The fields of a profile that `createProfile` writes. */
  datatype ProfileFields = ProfileFields(
    user: Id,
    handle: string,
    company: string,
    website: string,
    status: string,
    location: string,
    bio: string,
    githubusername: string,
    skills: seq<string>,
    social: Social)

  /** An experience or education entry: its sub-document id and the fields
      picked from the request body. */
  datatype Entry = Entry(id: Id, fields: Body)

  datatype Profile = Profile(fields: ProfileFields, experience: seq<Entry>, education: seq<Entry>)

  datatype Comment = Comment(id: Id, text: string, name: Option<string>, avatar: Option<string>, user: Id)

  /** A post: `likes` holds the ids of the users who liked it. */
  datatype Post = Post(
    id: Id,
    user: Id,
    text: string,
    name: Option<string>,
    avatar: Option<string>,
    likes: seq<Id>,
    comments: seq<Comment>)

  /** `entries.map(item => item.id)`. */
  function EntryIds(entries: seq<Entry>): (ids: seq<Id>)
    ensures |ids| == |entries|
    ensures forall i :: 0 <= i < |entries| ==> ids[i] == entries[i].id
  {
    seq(|entries|, i requires 0 <= i < |entries| => entries[i].id)
  }

  /** `comments.map(item => item._id.toString())`. */
  function CommentIds(comments: seq<Comment>): (ids: seq<Id>)
    ensures |ids| == |comments|
    ensures forall i :: 0 <= i < |comments| ==> ids[i] == comments[i].id
  {
    seq(|comments|, i requires 0 <= i < |comments| => comments[i].id)
  }

  /** Some user in the table has this email. */
  predicate EmailTaken(users: map<Id, User>, email: string) {
    exists id :: id in users && users[id].email == email
  }

  /** Some profile has this handle. */
  predicate HandleTaken(profiles: map<Id, Profile>, handle: string) {
    exists owner :: owner in profiles && profiles[owner].fields.handle == handle
  }

  /** The in-memory document store. Users and posts are keyed by their id;
      profiles by the id of the user who owns them (one profile per user). */
  class Db {
    var users: map<Id, User>
    var profiles: map<Id, Profile>
    var posts: map<Id, Post>

    /** Every document sits under its own key, emails are unique, and no
        user likes a post twice. */
    ghost predicate Valid()
      reads this
    {
      && (forall id :: id in users ==> users[id].id == id)
      && (forall a, b :: a in users && b in users && users[a].email == users[b].email ==> a == b)
      && (forall owner :: owner in profiles ==> profiles[owner].fields.user == owner)
      && (forall id :: id in posts ==> posts[id].id == id && NoDuplicates(posts[id].likes))
    }

    constructor ()
      ensures Valid()
      ensures users == map[] && profiles == map[] && posts == map[]
    {
      users, profiles, posts := map[], map[], map[];
    }

    /** `post.save()`: the document replaces the stored post with its id. */
    method SavePost(doc: PostDocument)
      requires Valid()
      requires NoDuplicates(doc.likes)
      modifies this
      ensures Valid()
      ensures posts == old(posts)[doc.id := doc.Snapshot()]
      ensures users == old(users) && profiles == old(profiles)
    {
      posts := posts[doc.id := doc.Snapshot()];
    }

    /** `profile.save()`: the document replaces the stored profile of its owner. */
    method SaveProfile(doc: ProfileDocument)
      requires Valid()
      modifies this
      ensures Valid()
      ensures profiles == old(profiles)[doc.fields.user := doc.Snapshot()]
      ensures users == old(users) && posts == old(posts)
    {
      profiles := profiles[doc.fields.user := doc.Snapshot()];
    }
  }

  /** A post loaded into memory by `Post.findOne`: its likes and comments are
      changed in place by `unshift` and `splice`. */
  class PostDocument {
    const id: Id
    const user: Id
    const text: string
    const name: Option<string>
    const avatar: Option<string>
    var likes: seq<Id>
    var comments: seq<Comment>

    constructor Load(p: Post)
      ensures Snapshot() == p
    {
      id, user, text, name, avatar := p.id, p.user, p.text, p.name, p.avatar;
      likes, comments := p.likes, p.comments;
    }

    /** The document as it would be stored now. */
    function Snapshot(): Post
      reads this
    {
      Post(id, user, text, name, avatar, likes, comments)
    }

    /** `post.likes.unshift({ _user: u })`. */
    method UnshiftLike(u: Id)
      modifies this
      ensures likes == [u] + old(likes) && comments == old(comments)
    {
      likes := [u] + likes;
    }

    /** `post.likes.splice(start, 1)`. */
    method SpliceLike(start: int)
      modifies this
      ensures likes == SpliceOne(old(likes), start) && comments == old(comments)
    {
      likes := SpliceOne(likes, start);
    }

    /** `post.comments.unshift(c)`. */
    method UnshiftComment(c: Comment)
      modifies this
      ensures comments == [c] + old(comments) && likes == old(likes)
    {
      comments := [c] + comments;
    }

    /** `post.comments.splice(start, 1)`. */
    method SpliceComment(start: int)
      modifies this
      ensures comments == SpliceOne(old(comments), start) && likes == old(likes)
    {
      comments := SpliceOne(comments, start);
    }
  }

  /** A profile loaded into memory by `Profile.findOne`: its experience and
      education are changed in place by `unshift` and `splice`. */
  class ProfileDocument {
    const fields: ProfileFields
    var experience: seq<Entry>
    var education: seq<Entry>

    constructor Load(p: Profile)
      ensures Snapshot() == p
    {
      fields := p.fields;
      experience, education := p.experience, p.education;
    }

    /** The document as it would be stored now. */
    function Snapshot(): Profile
      reads this
    {
      Profile(fields, experience, education)
    }

    /** `profile.experience.unshift(e)`. */
    method UnshiftExperience(e: Entry)
      modifies this
      ensures experience == [e] + old(experience) && education == old(education)
    {
      experience := [e] + experience;
    }

    /** `profile.experience.splice(start, 1)`. */
    method SpliceExperience(start: int)
      modifies this
      ensures experience == SpliceOne(old(experience), start) && education == old(education)
    {
      experience := SpliceOne(experience, start);
    }

    /** `profile.education.unshift(e)`. */
    method UnshiftEducation(e: Entry)
      modifies this
      ensures education == [e] + old(education) && experience == old(experience)
    {
      education := [e] + education;
    }

    /** `profile.education.splice(start, 1)`. */
    method SpliceEducation(start: int)
      modifies this
      ensures education == SpliceOne(old(education), start) && experience == old(experience)
    {
      education := SpliceOne(education, start);
    }
  }

  /** The idiom `s.splice(s.map(item => item.id).indexOf(id), 1)` for
      experience and education entries: with a present id exactly the first
      entry with that id goes; with an absent id the last entry goes. */
  function RemoveEntry(entries: seq<Entry>, id: Id): (r: seq<Entry>)
    ensures var i := IndexOf(EntryIds(entries), id);
      0 <= i ==> entries[i].id == id && (forall j :: 0 <= j < i ==> entries[j].id != id)
                 && r == entries[..i] + entries[i + 1..]
    ensures id !in EntryIds(entries) ==> r == if entries == [] then [] else entries[..|entries| - 1]
  {
    var i := IndexOf(EntryIds(entries), id);
    assert 0 <= i ==> forall j :: 0 <= j < i ==> EntryIds(entries)[..i][j] == entries[j].id;
    SpliceMinusOne(entries);
    SpliceOne(entries, i)
  }

  /** The same idiom for comments. */
  function RemoveComment(comments: seq<Comment>, id: Id): (r: seq<Comment>)
    ensures var i := IndexOf(CommentIds(comments), id);
      0 <= i ==> comments[i].id == id && (forall j :: 0 <= j < i ==> comments[j].id != id)
                 && r == comments[..i] + comments[i + 1..]
    ensures id !in CommentIds(comments) ==> r == if comments == [] then [] else comments[..|comments| - 1]
  {
    var i := IndexOf(CommentIds(comments), id);
    assert 0 <= i ==> forall j :: 0 <= j < i ==> CommentIds(comments)[..i][j] == comments[j].id;
    SpliceMinusOne(comments);
    SpliceOne(comments, i)
  }
}
