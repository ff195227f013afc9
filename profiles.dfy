/** The Profile model and the post-save hook on User that gives each new
    user one Profile and one empty FriendList (profiles/models.py). */
module Profiles {
  import opened Users
  import opened FriendModels

  /** The default of Profile.image. */
  const DefaultImage: string := "../i5d3k6odv5vkthh2yjul"

  /** A Profile row; the timestamps are not modelled. */
  datatype Profile = Profile(owner: User, name: string, email: string, image: string, bio: string)

  /** Profile.objects.create(owner=user): every other field at its default
      (`name` and `bio` empty, `email` the empty string Django stores for a
      field without a default). */
  function NewProfile(owner: User): (p: Profile)
    ensures p.owner == owner && p.name == "" && p.bio == "" && p.email == "" && p.image == DefaultImage
  {
    Profile(owner, "", "", DefaultImage, "")
  }

  /** The Profile table, keyed by its one-to-one owner field. */
  class ProfileStore {
    var profiles: map<User, Profile>

    constructor ()
      ensures profiles == map[]
    {
      profiles := map[];
    }

    /** Profile.objects.create: a second profile for the same owner violates
        the one-to-one constraint and raises IntegrityError. */
    method CreateProfileRow(owner: User) returns (raised: bool)
      modifies this
      ensures raised == (owner in old(profiles))
      ensures profiles == if raised then old(profiles) else old(profiles)[owner := NewProfile(owner)]
    {
      raised := owner in profiles;
      if !raised {
        profiles := profiles[owner := NewProfile(owner)];
      }
    }
  }

  /** create_profile(sender, instance, created): when `created`, a Profile
      and then a FriendList for `instance`; an IntegrityError from the first
      stops the second. */
  method CreateProfile(profiles: ProfileStore, friends: FriendStore, instance: User, created: bool)
    returns (raised: bool)
    modifies profiles, friends
    ensures !created ==> !raised && profiles.profiles == old(profiles.profiles) && friends.lists == old(friends.lists)
    ensures friends.requests == old(friends.requests)
    ensures created && instance in old(profiles.profiles) ==>
      raised && profiles.profiles == old(profiles.profiles) && friends.lists == old(friends.lists)
    ensures created && instance !in old(profiles.profiles) ==>
      profiles.profiles == old(profiles.profiles)[instance := NewProfile(instance)] &&
      raised == (instance in old(friends.lists)) &&
      friends.lists == if raised then old(friends.lists) else old(friends.lists)[instance := {}]
  {
    raised := false;
    if created {
      raised := profiles.CreateProfileRow(instance);
      if raised {
        return;
      }
      raised := friends.CreateFriendList(instance);
    }
  }

  /** A new user's empty list keeps the friend graph symmetric and free of
      self-friendship. */
  lemma NewFriendListKeepsInvariants(s: State, user: User)
    requires Consistent(s) && user !in s.lists
    ensures Consistent(State(s.lists[user := {}], s.requests))
  {
    var lists := s.lists[user := {}];
    forall a, b | a in lists && b in lists[a]
      ensures b in lists && a in lists[b]
    {
      assert a != user && b in s.lists[a];
    }
  }
}
