/** Channels and the epoll poller on the heap (include/Channel.h, src/EPollPoller.cc). */
module Pollers {
  import opened ChannelSpec

  class Channel {
    const poller: EPollPoller
    const fd: nat
    var events: Events
    var revents: Revents
    var index: Index
    var tied: bool

    constructor (poller: EPollPoller, fd: nat)
      ensures this.poller == poller && this.fd == fd
      ensures events == NO_EVENTS && index == New && !tied
    {
      this.poller, this.fd := poller, fd;
      events, revents := NO_EVENTS, Revents(false, false, false, false, false);
      index, tied := New, false;
    }

    /** Every enable and disable function: set the mask, then `update()`. */
    method SetEvents(mask: Events)
      requires poller.Valid() && this in poller.live
      modifies this`events, this`index, poller`channels, poller`kernel, poller`ctlErrors
      ensures poller.Valid() && events == mask
      ensures index == UpdateIndex(old(index), mask)
      ensures poller.channels == old(poller.channels)[fd := this]
      ensures poller.kernel == Ctl(old(poller.kernel), UpdateOp(old(index), mask), fd, Interest(mask, this))
    {
      events := mask;
      poller.UpdateChannel(this);
    }

    method EnableReading()
      requires poller.Valid() && this in poller.live
      modifies this`events, this`index, poller`channels, poller`kernel, poller`ctlErrors
      ensures poller.Valid() && events == old(events).(read := true) && index == Added
    {
      SetEvents(events.(read := true));
    }

    method EnableWriting()
      requires poller.Valid() && this in poller.live
      modifies this`events, this`index, poller`channels, poller`kernel, poller`ctlErrors
      ensures poller.Valid() && events == old(events).(write := true) && index == Added
    {
      SetEvents(events.(write := true));
    }

    method DisableWriting()
      requires poller.Valid() && this in poller.live
      modifies this`events, this`index, poller`channels, poller`kernel, poller`ctlErrors
      ensures poller.Valid() && events == old(events).(write := false)
    {
      SetEvents(events.(write := false));
    }

    /** A second call in a row puts the channel back into the interest set with an empty mask. */
    method DisableAll()
      requires poller.Valid() && this in poller.live
      modifies this`events, this`index, poller`channels, poller`kernel, poller`ctlErrors
      ensures poller.Valid() && events == NO_EVENTS
      ensures index == if old(index).Added? then Deleted else Added
      ensures fd in poller.kernel <==> !old(index).Added?
    {
      SetEvents(NO_EVENTS);
    }

    method Remove()
      requires poller.Valid() && this in poller.live
      modifies this`index, poller`channels, poller`kernel, poller`ctlErrors
      ensures poller.Valid() && index == New
      ensures poller.channels == old(poller.channels) - {fd} && poller.kernel == old(poller.kernel) - {fd}
    {
      poller.RemoveChannel(this);
    }

    /** `handleEvent`: a tied channel whose owner is gone runs nothing. */
    method HandleEvent(ownerAlive: bool) returns (calls: seq<Callback>)
      ensures calls == if tied && !ownerAlive then [] else Dispatch(revents)
    {
      calls := [];
      if !tied || ownerAlive {
        if revents.hup && !HasInput(revents) { calls := calls + [CloseCb]; }
        if revents.err { calls := calls + [ErrorCb]; }
        if HasInput(revents) { calls := calls + [ReadCb]; }
        if revents.out_ { calls := calls + [WriteCb]; }
      }
    }
  }

  class EPollPoller {
    var channels: map<nat, Channel>
    /** The interest set the kernel keeps for this epoll descriptor. */
    var kernel: map<nat, Interest<Channel>>
    /** epoll_ctl calls that failed; a failed ADD or MOD ends the process. */
    var ctlErrors: nat
    /** The channels whose descriptors are open, and whose descriptor each one is. */
    ghost var live: set<Channel>
    ghost var byFd: map<nat, Channel>

    /** Live channels have distinct descriptors. */
    ghost predicate Distinct()
      reads this`live, this`byFd
    {
      forall c | c in live :: c.poller == this && c.fd in byFd && byFd[c.fd] == c
    }

    /** `channels_` holds exactly the channels whose index is not New. */
    ghost predicate Registered()
      reads this`live, this`channels, live`index
    {
      && (forall fd | fd in channels :: channels[fd] in live && channels[fd].fd == fd)
      && (forall c | c in live :: c.index != New <==> c.fd in channels && channels[c.fd] == c)
    }

    /** The kernel watches exactly the Added channels, each with the mask it asks for, save
        possibly `pending`, whose mask has just changed. */
    ghost predicate Watched(pending: Channel?)
      reads this`live, this`kernel, live`index, live`events
    {
      && (forall fd | fd in kernel :: kernel[fd].channel in live && kernel[fd].channel.fd == fd)
      && (forall c | c in live :: c.index == Added <==> c.fd in kernel && kernel[c.fd].channel == c)
      && (forall c | c in live && c != pending :: c.index == Added ==> kernel[c.fd].events == c.events)
    }

    ghost predicate ValidBut(pending: Channel?)
      reads this, live
    {
      Distinct() && Registered() && Watched(pending) && ctlErrors == 0
    }

    /** The three-way agreement, with no illegal epoll_ctl call ever issued. */
    ghost predicate Valid()
      reads this, live
    {
      ValidBut(null)
    }

    constructor ()
      ensures Valid() && live == {} && channels == map[] && kernel == map[]
    {
      channels, kernel, ctlErrors := map[], map[], 0;
      live, byFd := {}, map[];
    }

    /** A descriptor that is not open elsewhere gets a channel on this poller. */
    method Open(fd: nat) returns (c: Channel)
      requires Valid() && forall d | d in live :: d.fd != fd
      modifies this`live, this`byFd
      ensures Valid() && fresh(c) && c.fd == fd && c.poller == this && c.index == New
      ensures live == old(live) + {c}
    {
      c := new Channel(this, fd);
      live, byFd := live + {c}, byFd[fd := c];
    }

    /** A channel may go, and its descriptor be reused, once it is out of the poller. */
    method Close(c: Channel)
      requires Valid() && c in live && c.index == New
      modifies this`live
      ensures Valid() && live == old(live) - {c} && c.fd !in channels && c.fd !in kernel
    {
      live := live - {c};
    }

    /** `update`: one epoll_ctl call. */
    method Update(op: CtlOp, c: Channel)
      modifies this`kernel, this`ctlErrors
      ensures ctlErrors == old(ctlErrors) + (if Legal(old(kernel), op, c.fd) then 0 else 1)
      ensures kernel == if Legal(old(kernel), op, c.fd) then Ctl(old(kernel), op, c.fd, Interest(c.events, c)) else old(kernel)
    {
      if op.Add? == (c.fd !in kernel) {
        kernel := if op.Del? then kernel - {c.fd} else kernel[c.fd := Interest(c.events, c)];
      } else {
        ctlErrors := ctlErrors + 1;
      }
    }

    method UpdateChannel(c: Channel)
      requires ValidBut(c) && c in live
      modifies this`channels, this`kernel, this`ctlErrors, c`index
      ensures Valid() && c.index == UpdateIndex(old(c.index), c.events)
      ensures channels == old(channels)[c.fd := c]
      ensures kernel == Ctl(old(kernel), UpdateOp(old(c.index), c.events), c.fd, Interest(c.events, c))
    {
      var index := c.index;
      if index == New || index == Deleted {
        AddToInterest(c);
      } else {
        ChangeInterest(c);
      }
    }

    /** A channel that is new or was taken out of the interest set. */
    method AddToInterest(c: Channel)
      requires ValidBut(c) && c in live && c.index != Added
      modifies this`channels, this`kernel, this`ctlErrors, c`index
      ensures Valid() && c.index == Added && channels == old(channels)[c.fd := c]
      ensures kernel == old(kernel)[c.fd := Interest(c.events, c)]
    {
      assert c.fd !in kernel;
      if c.index == New {
        channels := channels[c.fd := c];
      }
      c.index := Added;
      Update(Add, c);
      assert forall d | d in live && d != c :: d.fd != c.fd && d.index == old(d.index) && d.events == old(d.events);
      assert Registered();
      assert Watched(null);
    }

    /** A channel that is in the interest set: its entry changes, or goes with an empty mask. */
    method ChangeInterest(c: Channel)
      requires ValidBut(c) && c in live && c.index == Added
      modifies this`kernel, this`ctlErrors, c`index
      ensures Valid() && c.index == (if IsNoneEvent(c.events) then Deleted else Added) && channels[c.fd] == c
      ensures kernel == if IsNoneEvent(c.events) then old(kernel) - {c.fd} else old(kernel)[c.fd := Interest(c.events, c)]
    {
      assert c.fd in kernel;
      if IsNoneEvent(c.events) {
        c.index := Deleted;
        Update(Del, c);
      } else {
        Update(Mod, c);
      }
      assert forall d | d in live && d != c :: d.fd != c.fd && d.index == old(d.index) && d.events == old(d.events);
    }

    method RemoveChannel(c: Channel)
      requires Valid() && c in live
      modifies this`channels, this`kernel, this`ctlErrors, c`index
      ensures Valid() && c.index == New
      ensures channels == old(channels) - {c.fd} && kernel == old(kernel) - {c.fd}
    {
      channels := channels - {c.fd};
      if c.index == Added {
        Update(Del, c);
      }
      c.index := New;
    }

    /** `fillActiveChannels` on what epoll_wait returned: every pointer it hands out is a
        registered channel, in the order reported, with the reported events saved. */
    method FillActiveChannels(reported: seq<(nat, Revents)>) returns (active: seq<Channel>)
      requires Valid() && forall i :: 0 <= i < |reported| ==> reported[i].0 in kernel
      requires forall i, j :: 0 <= i < j < |reported| ==> reported[i].0 != reported[j].0
      modifies live`revents
      ensures Valid() && |active| == |reported|
      ensures forall i :: 0 <= i < |active| ==>
                active[i].fd == reported[i].0 && active[i].revents == reported[i].1
                && active[i].fd in channels && channels[active[i].fd] == active[i]
    {
      active := [];
      var i := 0;
      while i < |reported|
        invariant 0 <= i == |active| <= |reported|
        invariant forall k :: 0 <= k < i ==> active[k] == kernel[reported[k].0].channel
        invariant forall k :: 0 <= k < i ==> active[k].revents == reported[k].1
        modifies live`revents
      {
        var c := kernel[reported[i].0].channel;
        c.revents := reported[i].1;
        active := active + [c];
        i := i + 1;
      }
    }
  }

  /** What can happen on a poller, by descriptor: a descriptor is opened, or a closed one used
      again; the mask of its channel changes; the channel is removed; the descriptor is closed. */
  datatype Op = OpenOp(fd: nat) | MaskOp(fd: nat, mask: Events) | RemoveOp(fd: nat) | CloseOp(fd: nat)

  /** The live channels, as the program finds them by descriptor. */
  ghost predicate Tracks(p: EPollPoller, open: map<nat, Channel>)
    reads p
  {
    (forall fd | fd in open :: open[fd] in p.live && open[fd].fd == fd) && (forall c | c in p.live :: c.fd in open && open[c.fd] == c)
  }

  /** One operation.  A descriptor that is open is not handed out again, and one whose channel is
      still in the poller is not closed, which is what the teardown protocol guarantees. */
  method Perform(p: EPollPoller, open: map<nat, Channel>, op: Op) returns (open': map<nat, Channel>)
    requires p.Valid() && Tracks(p, open)
    modifies p, p.live
    ensures p.Valid() && Tracks(p, open') && fresh(p.live - old(p.live))
  {
    open' := open;
    match op
    case OpenOp(fd) =>
      if fd !in open {
        var c := p.Open(fd);
        open' := open[fd := c];
      }
    case MaskOp(fd, mask) =>
      if fd in open {
        open[fd].SetEvents(mask);
      }
    case RemoveOp(fd) =>
      if fd in open {
        open[fd].Remove();
      }
    case CloseOp(fd) =>
      if fd in open && open[fd].index == New {
        p.Close(open[fd]);
        open' := open - {fd};
      }
  }

  /** After any sequence of operations, over any number of uses of the same descriptor, channel
      states, the poller's map and the kernel's interest set agree, and every epoll_ctl call
      was legal. */
  method Drive(p: EPollPoller, ops: seq<Op>) returns (open: map<nat, Channel>)
    requires p.Valid() && p.live == {}
    modifies p
    ensures p.Valid() && p.ctlErrors == 0 && Tracks(p, open)
    ensures p.channels.Keys == set fd | fd in open && open[fd].index != New
    ensures p.kernel.Keys == set fd | fd in open && open[fd].index == Added
    ensures forall fd | fd in p.kernel :: p.kernel[fd] == Interest(open[fd].events, open[fd])
  {
    open := map[];
    for i := 0 to |ops|
      invariant p.Valid() && Tracks(p, open) && fresh(p.live)
      modifies p, p.live
    {
      open := Perform(p, open, ops[i]);
    }
  }
}
