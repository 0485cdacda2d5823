/** Channel.h, Channel.cc, Poller.cc and EPollPoller.cc: who is registered with epoll, and for what.

    Three records must agree about every channel: its own `index` and `events`, the poller's
    `channels` map, and the kernel's interest set. */
module Pollers {
  import opened Kernel

  /** `kNew`, `kAdded`, `kDeleted`. */
  datatype Index = New | Added | Deleted

  datatype Operation = ADD | MOD | DEL

  datatype Registration = Registration(mask: Interest, ptr: Channel)

  /** One slot of the array handed to `epoll_wait`. */
  datatype EpollEvent = Blank | Event(ptr: Channel, revents: Revents)

  /** The kernel's epoll instance. */
  class Epoll {
    var interest: map<int, Registration>

    constructor ()
      ensures interest == map[]
    {
      interest := map[];
    }

    /** `epoll_ctl` succeeds exactly when its descriptor is absent (ADD) or present (MOD, DEL). */
    method Ctl(op: Operation, fd: int, registration: Registration)
      requires op == ADD <==> fd !in interest
      modifies this
      ensures interest == if op == DEL then old(interest) - {fd} else old(interest)[fd := registration]
    {
      interest := if op == DEL then interest - {fd} else interest[fd := registration];
    }
  }

  class Channel {
    const poller: EPollPoller
    const fd: int
    var events: Interest
    var revents: Revents
    var index: Index
    var tied: bool

    constructor (poller: EPollPoller, fd: int)
      requires poller.Valid()
      modifies poller`known
      ensures this.poller == poller && this.fd == fd
      ensures events == NO_EVENTS && index == New && !tied
      ensures poller.Valid() && poller.known == old(poller.known) + {this}
    {
      this.poller := poller;
      this.fd := fd;
      events := NO_EVENTS;
      revents := Revents(false, false, false, false, false);
      index := New;
      tied := false;
      new;
      poller.known := poller.known + {this};
    }

    /** What every method below needs: the poller tracks this channel, and a first registration
        does not find its descriptor taken. */
    ghost predicate Ready()
      reads `index, poller`channels, poller`known, poller.known`index, poller.known`events, poller.epoll
    {
      poller.Valid() && this in poller.known && (index == New ==> fd !in poller.channels)
    }

    predicate IsWriting()
      reads this
    {
      events.writing
    }

    predicate IsNonEvent()
      reads this
    {
      events == NO_EVENTS
    }

    method EnableReading()
      requires Ready()
      modifies `events, `index, poller`channels, poller.epoll
      ensures Ready() && events == old(events).(reading := true)
      ensures poller.Updated(this, old(index), old(poller.channels), old(poller.epoll.interest))
    {
      events := events.(reading := true);
      poller.UpdateChannel(this);
    }

    method DisableReading()
      requires Ready()
      modifies `events, `index, poller`channels, poller.epoll
      ensures Ready() && events == old(events).(reading := false)
      ensures poller.Updated(this, old(index), old(poller.channels), old(poller.epoll.interest))
    {
      events := events.(reading := false);
      poller.UpdateChannel(this);
    }

    method EnableWriting()
      requires Ready()
      modifies `events, `index, poller`channels, poller.epoll
      ensures Ready() && events == old(events).(writing := true)
      ensures poller.Updated(this, old(index), old(poller.channels), old(poller.epoll.interest))
    {
      events := events.(writing := true);
      poller.UpdateChannel(this);
    }

    method DisableWriting()
      requires Ready()
      modifies `events, `index, poller`channels, poller.epoll
      ensures Ready() && events == old(events).(writing := false)
      ensures poller.Updated(this, old(index), old(poller.channels), old(poller.epoll.interest))
    {
      events := events.(writing := false);
      poller.UpdateChannel(this);
    }

    method DisableAll()
      requires Ready()
      modifies `events, `index, poller`channels, poller.epoll
      ensures Ready() && events == NO_EVENTS
      ensures poller.Updated(this, old(index), old(poller.channels), old(poller.epoll.interest))
    {
      events := NO_EVENTS;
      poller.UpdateChannel(this);
    }

    /** The source asserts that only a known channel is removed. */
    method Remove()
      requires Ready() && index != New
      modifies `index, poller`channels, poller.epoll
      ensures Ready() && index == New
      ensures poller.channels == old(poller.channels) - {fd}
      ensures poller.epoll.interest == old(poller.epoll.interest) - {fd}
    {
      poller.RemoveChannel(this);
    }
  }

  class EPollPoller {
    const epoll: Epoll
    var channels: map<int, Channel>
    var events: array<EpollEvent>
    /** The channels built for this poller. */
    ghost var known: set<Channel>

    predicate HasChannel(c: Channel)
      reads `channels
    {
      c.fd in channels && channels[c.fd] == c
    }

    /** The index says where the channel is. */
    ghost predicate Tracks(c: Channel)
      reads `channels, epoll, c`index
    {
      && (c.index != New <==> HasChannel(c))
      && (c.index == Added <==> c.fd in epoll.interest && epoll.interest[c.fd].ptr == c)
    }

    /** ... and the kernel watches exactly the events the channel asks for. */
    ghost predicate Agrees(c: Channel)
      reads `channels, epoll, c`index, c`events
    {
      && Tracks(c)
      && (c.index == Added ==> epoll.interest[c.fd] == Registration(c.events, c))
      && (c.index == Deleted ==> c.events == NO_EVENTS)
    }

    /** Nothing is registered that is not a known channel under its own descriptor. */
    ghost predicate Structure()
      reads `channels, `known, epoll
    {
      && (forall fd :: fd in channels ==> channels[fd] in known && channels[fd].fd == fd)
      && (forall fd :: fd in epoll.interest ==> epoll.interest[fd].ptr in known && epoll.interest[fd].ptr.fd == fd)
      && (forall c :: c in known ==> c.poller == this)
    }

    ghost predicate Valid()
      reads `channels, `known, known`index, known`events, epoll
    {
      Structure() && forall c :: c in known ==> Agrees(c)
    }

    /** `Valid`, while one channel has changed its `events` and not yet told the poller. */
    ghost predicate ValidBut(changed: Channel)
      reads `channels, `known, known`index, known`events, epoll
    {
      && Structure()
      && (forall c :: c in known ==> Tracks(c))
      && (forall c :: c in known && c != changed ==> Agrees(c))
    }

    /** The complete effect of `updateChannel` on the three records. */
    ghost predicate Updated(c: Channel, index: Index, before: map<int, Channel>, interest: map<int, Registration>)
      reads `channels, epoll, c`index, c`events
    {
      && c.index == (if index == Added && c.events == NO_EVENTS then Deleted else Added)
      && channels == (if index == New then before[c.fd := c] else before)
      && epoll.interest == (if c.index == Added then interest[c.fd := Registration(c.events, c)]
                            else interest - {c.fd})
    }

    constructor ()
      ensures Valid() && known == {} && channels == map[] && fresh(epoll) && fresh(events)
      ensures epoll.interest == map[] && events.Length == 16
    {
      epoll := new Epoll();
      channels := map[];
      events := new EpollEvent[16](_ => Blank);
      known := {};
    }

    /** Re-adds a `Deleted` channel even when its mask is empty. */
    method UpdateChannel(channel: Channel)
      requires channel in known && ValidBut(channel)
      requires channel.index == New ==> channel.fd !in channels
      modifies `channels, epoll, channel`index
      ensures Valid()
      ensures Updated(channel, old(channel.index), old(channels), old(epoll.interest))
    {
      hide Channel.Ready;
      var index := channel.index;
      if index == New || index == Deleted {
        if index == New {
          channels := channels[channel.fd := channel];
        } else {
          assert channel.fd in channels;
        }
        channel.index := Added;
        Update(ADD, channel);
      } else if channel.IsNonEvent() {
        Update(DEL, channel);
        channel.index := Deleted;
      } else {
        Update(MOD, channel);
      }
      assert Agrees(channel);
      assert forall c :: c in known && c != channel ==> Agrees(c);
    }

    method RemoveChannel(channel: Channel)
      requires channel in known && Valid()
      requires channel.index != New
      modifies `channels, epoll, channel`index
      ensures Valid() && channel.index == New
      ensures channels == old(channels) - {channel.fd}
      ensures epoll.interest == old(epoll.interest) - {channel.fd}
    {
      channels := channels - {channel.fd};
      if channel.index == Added {
        Update(DEL, channel);
      }
      channel.index := New;
    }

    method Update(op: Operation, channel: Channel)
      requires op == ADD <==> channel.fd !in epoll.interest
      modifies epoll
      ensures epoll.interest == if op == DEL then old(epoll.interest) - {channel.fd}
                                else old(epoll.interest)[channel.fd := Registration(channel.events, channel)]
    {
      epoll.Ctl(op, channel.fd, Registration(channel.events, channel));
    }

    /** What the kernel may put on its ready list: each registered descriptor at most once. */
    ghost predicate Reportable(ready: seq<EpollEvent>)
      reads epoll
    {
      && (forall i :: 0 <= i < |ready| ==> ready[i].Event? && ready[i].ptr.fd in epoll.interest
                                           && epoll.interest[ready[i].ptr.fd].ptr == ready[i].ptr)
      && (forall i, j :: 0 <= i < j < |ready| ==> ready[i].ptr != ready[j].ptr)
    }

    /** Reports as many ready channels as the event list holds, and doubles a list that was filled. */
    method Poll(ready: seq<EpollEvent>) returns (active: seq<Channel>)
      requires Valid() && events.Length > 0 && Reportable(ready)
      modifies `events, events, (set e | e in ready && e.Event? :: e.ptr)`revents
      ensures Valid()
      ensures |active| == Min(|ready|, old(events.Length))
      ensures forall i :: 0 <= i < |active| ==>
                active[i] == ready[i].ptr && active[i].revents == ready[i].revents && HasChannel(active[i])
      ensures forall c :: c in known && c !in active ==> c.revents == old(c.revents)
      ensures events.Length == NextSize(old(events.Length), |ready|)
      ensures events == old(events) || fresh(events)
    {
      var numEvents := Min(|ready|, events.Length);
      EpollWait(ready[..numEvents]);
      active := [];
      if numEvents > 0 {
        active := FillActiveChannels(numEvents, ready);
        if numEvents == events.Length {
          DoubleEventList();
        }
      }
    }

    method DoubleEventList()
      modifies `events
      ensures fresh(events) && events.Length == 2 * old(events.Length)
      ensures events[..old(events.Length)] == old(events[..])
    {
      var resized := new EpollEvent[events.Length * 2](_ => Blank);
      forall i | 0 <= i < events.Length {
        resized[i] := events[i];
      }
      events := resized;
    }

    /** The kernel writes its report into the front of the event list. */
    method EpollWait(report: seq<EpollEvent>)
      requires |report| <= events.Length
      modifies events
      ensures forall k :: 0 <= k < |report| ==> events[k] == report[k]
    {
      for i := 0 to |report|
        invariant forall k :: 0 <= k < i ==> events[k] == report[k]
      {
        events[i] := report[i];
      }
    }

    method FillActiveChannels(numEvents: nat, ghost ready: seq<EpollEvent>) returns (active: seq<Channel>)
      requires numEvents <= |ready| && numEvents <= events.Length
      requires Reportable(ready)
      requires forall k :: 0 <= k < numEvents ==> events[k] == ready[k]
      modifies (set e | e in ready && e.Event? :: e.ptr)`revents
      ensures |active| == numEvents
      ensures forall k :: 0 <= k < numEvents ==> active[k] == ready[k].ptr && active[k].revents == ready[k].revents
      ensures forall c :: c in old(known) && c !in active ==> c.revents == old(c.revents)
    {
      active := [];
      for i := 0 to numEvents
        invariant |active| == i
        invariant forall k :: 0 <= k < i ==> active[k] == ready[k].ptr && active[k].revents == ready[k].revents
        invariant forall c :: c in old(known) && c !in active ==> c.revents == old(c.revents)
      {
        assert events[i] == ready[i];
        var channel := events[i].ptr;
        assert ready[i] in ready;
        channel.revents := events[i].revents;
        active := active + [channel];
      }
    }
  }

  // ---------------------------------------------------------------- the event list over many polls

  function NextSize(size: nat, ready: nat): nat {
    if 0 < size <= ready then 2 * size else size
  }

  function SizeAfter(size: nat, ready: nat, polls: nat): nat
    decreases polls
  {
    if polls == 0 then size else SizeAfter(NextSize(size, ready), ready, polls - 1)
  }

  /** When `ready` descriptors stay ready, a list of any positive size `size` outgrows them within
      `polls` polls as soon as `size * 2^polls > ready`; until then it doubles each time. */
  lemma {:induction false} EventListCatchesUp(size: nat, ready: nat, polls: nat)
    requires size > 0
    ensures SizeAfter(size, ready, polls) > ready || SizeAfter(size, ready, polls) == size * Pow2(polls)
    ensures size <= ready ==> SizeAfter(size, ready, polls) <= 2 * ready
    decreases polls
  {
    if polls > 0 {
      if size <= ready {
        EventListCatchesUp(2 * size, ready, polls - 1);
        if 2 * size > ready {
          StaysLarge(2 * size, ready, polls - 1);
        }
      } else {
        StaysLarge(size, ready, polls);
      }
    }
  }

  lemma {:induction false} StaysLarge(size: nat, ready: nat, polls: nat)
    requires size > ready
    ensures SizeAfter(size, ready, polls) == size
    decreases polls
  {
    if polls > 0 {
      StaysLarge(size, ready, polls - 1);
    }
  }

  function Pow2(n: nat): nat { if n == 0 then 1 else 2 * Pow2(n - 1) }
}
