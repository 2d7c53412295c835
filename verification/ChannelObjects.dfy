/**
 `channel` and `user` as the objects they are in the source, each with its own
 set, updated in place.  One operation runs at a time here; what interleaving
 does to the pair of sets is the subject of module `Membership`.
 */
module ChannelObjects {

  class User {
    var name: string
    var connected: bool          // a weak pointer to this user can be locked
    var inbox: seq<string>
    var channels: set<Channel>

    constructor ()
      ensures name == "" && connected && inbox == [] && channels == {}
    {
      name, connected, inbox, channels := "", true, [], {};
    }

    method Receive(m: string)
      modifies this`inbox
      ensures inbox == old(inbox) + [m]
    {
      inbox := inbox + [m];
    }

    /** `user::on_insert`; the precondition is the BOOST_VERIFY. */
    method OnInsert(c: Channel)
      requires c !in channels
      modifies this`channels
      ensures channels == old(channels) + {c}
    {
      channels := channels + {c};
    }

    /** `user::on_erase`; the precondition is the BOOST_VERIFY. */
    method OnErase(c: Channel)
      requires c in channels
      modifies this`channels
      ensures channels == old(channels) - {c}
    {
      channels := channels - {c};
    }

    /**
     `~user`: the loop ends only because each `Erase` removes the channel from
     `channels`, which it does only if the channel still lists this user.
     */
    method Destroy(ghost us: set<User>, ghost cs: set<Channel>)
      requires Mirror(us, cs) && this in us && !connected
      modifies us`channels, us`inbox, cs`users
      ensures channels == {} && inbox == old(inbox)
      ensures forall c | c in cs :: c.users == old(c.users) - {this}
      ensures forall u | u in us && u != this :: u.channels == old(u.channels)
      ensures Mirror(us, cs) && Mirror(us - {this}, cs)
    {
      while channels != {}
        invariant Mirror(us, cs) && inbox == old(inbox) && channels <= old(channels)
        invariant forall c | c in cs ::
                    c.users == if c in old(channels) && c !in channels then old(c.users) - {this} else old(c.users)
        invariant forall u | u in us && u != this :: u.channels == old(u.channels)
        decreases |channels|
      {
        ghost var before := channels;
        var c :| c in channels;
        var erased := c.Erase(this, us, cs);
        assert erased && channels == before - {c};
      }
    }
  }

  class Channel {
    const name: string
    var users: set<User>

    constructor (name: string)
      ensures this.name == name && users == {}
    {
      this.name := name;
      users := {};
    }

    /** Copies the list of users, then hands the message to each one that is still connected. */
    method Send(m: string)
      modifies users`inbox
      ensures forall u | u in users :: u.inbox == old(u.inbox) + (if u.connected then [m] else [])
    {
      var v: seq<User>, left := [], users;
      while left != {}
        invariant left <= users && forall u | u in users :: u in left <==> u !in v
        invariant forall i, j | 0 <= i < j < |v| :: v[i] != v[j]
        invariant forall u | u in v :: u in users
        decreases |left|
      {
        var p :| p in left;
        v, left := v + [p], left - {p};
      }
      for k := 0 to |v|
        invariant forall i | 0 <= i < |v| ::
                    v[i].inbox == old(v[i].inbox) + (if i < k && v[i].connected then [m] else [])
      {
        if v[k].connected { v[k].Receive(m); }
      }
    }

    /** `channel::insert`: false, and nothing changes, exactly for a user already present. */
    method Insert(u: User, ghost us: set<User>, ghost cs: set<Channel>) returns (inserted: bool)
      requires Mirror(us, cs) && u in us && this in cs
      modifies us`channels, us`inbox, this`users
      ensures inserted <==> u !in old(users)
      ensures users == old(users) + {u} && u.channels == old(u.channels) + {this}
      ensures forall v | v in us && v != u :: v.channels == old(v.channels)
      ensures forall v | v in us ::
                v.inbox == old(v.inbox) + (if inserted && v in users && v.connected then ["join"] else [])
      ensures Mirror(us, cs)
    {
      if u in users { return false; }
      users := users + {u};
      Send("join");
      u.OnInsert(this);
      return true;
    }

    /** `channel::erase`: false, and nothing changes, exactly for a user not present. */
    method Erase(u: User, ghost us: set<User>, ghost cs: set<Channel>) returns (erased: bool)
      requires Mirror(us, cs) && u in us && this in cs
      modifies us`channels, us`inbox, this`users
      ensures erased <==> u in old(users)
      ensures users == old(users) - {u} && u.channels == old(u.channels) - {this}
      ensures forall v | v in us && v != u :: v.channels == old(v.channels)
      ensures forall v | v in us ::
                v.inbox == old(v.inbox) + (if erased && v in old(users) && v.connected then ["leave"] else [])
      ensures Mirror(us, cs)
    {
      if u !in users { return false; }
      users := users - {u};
      Send("leave");
      if u.connected { u.Receive("leave"); }
      u.OnErase(this);
      return true;
    }
  }

  /** A user lists a channel exactly when the channel lists the user. */
  ghost predicate Mirror(us: set<User>, cs: set<Channel>)
    reads us, cs
  {
    && (forall c | c in cs :: c.users <= us)
    && (forall u | u in us :: u.channels <= cs)
    && (forall u, c | u in us && c in cs :: u in c.users <==> c in u.channels)
  }
}
