/** Channel.h, EPollPoller.cc and Poller.cc: channels and the poller as objects updated in place.
    The kernel's set, the set of live channels and the fatal exit are ghost state. */
module Pollers {
  import opened Masks
  import opened Registries

  // ----- The event list

  /** A list that came back full is doubled. */
  function NextListSize(size: nat, count: nat): nat {
    if count > 0 && count == size then 2 * size else size
  }

  /** The list's size after polls that reported so many events. */
  function ListSizeAfter(size: nat, counts: seq<nat>): nat
    decreases counts
  {
    if counts == [] then size else ListSizeAfter(NextListSize(size, counts[0]), counts[1..])
  }

  /** epoll_wait reports at most as many events as the list holds. */
  predicate Fitting(size: nat, counts: seq<nat>)
    decreases counts
  {
    counts == [] || (counts[0] <= size && Fitting(NextListSize(size, counts[0]), counts[1..]))
  }

  /** The list never grows past its first size or twice the most events of a poll, and once a poll has
      filled it there is room for one more. */
  lemma {:induction false} ListSizeBound(size: nat, counts: seq<nat>, most: nat)
    requires size > 0 && Fitting(size, counts) && forall i :: 0 <= i < |counts| ==> counts[i] <= most
    ensures var last := ListSizeAfter(size, counts);
      && size <= last && (last == size || last <= 2 * most)
      && (last == size <==> forall i :: 0 <= i < |counts| ==> counts[i] < size)
    decreases counts
  {
    if counts != [] {
      ListSizeBound(NextListSize(size, counts[0]), counts[1..], most);
    }
  }

  class Channel {
    const fd: int
    const poller: EPollPoller
    var events: Events
    var revents: Events
    var index: Index
    var tied: bool
    var tie: object?

    constructor (poller: EPollPoller, fd: int)
      modifies poller`live
      ensures this.fd == fd && this.poller == poller && events == NO_EVENT && index == New
      ensures revents == NO_EVENT && !tied && tie == null
      ensures poller.live == old(poller.live) + {this}
      ensures poller.View() == CreateChannel(old(poller.View()), this, fd)
    {
      this.fd, this.poller := fd, poller;
      events, revents, index := NO_EVENT, NO_EVENT, New;
      tied, tie := false, null;
      new;
      poller.live := poller.live + {this};
    }

    /** From now on handleEvent first locks the weak pointer to the channel's owner. */
    method Tie(owner: object)
      modifies this`tied, this`tie
      ensures tied && tie == owner
    {
      tie := owner;
      tied := true;
    }

    method SetEvents(mask: Events)
      requires this in poller.live
      modifies this`events, this`index, poller`channels, poller`kernel, poller`fatal
      ensures poller.View() == Registries.SetEvents(old(poller.View()), this, mask)
      ensures events == mask && index == NextIndex(old(index), mask)
    {
      events := mask;
      assert poller.View() == old(poller.View()).(
          chans := old(poller.View()).chans[this := Chan(fd, mask, old(index))]);
      poller.UpdateChannel(this);
      assert poller.View().chans[this] == Chan(fd, events, index);
    }

    method EnableReading()
      requires this in poller.live
      modifies this`events, this`index, poller`channels, poller`kernel, poller`fatal
      ensures poller.View() == Registries.SetEvents(old(poller.View()), this, old(events).WithReading())
      ensures events == old(events).WithReading() && index == NextIndex(old(index), events)
    {
      SetEvents(events.WithReading());
    }

    method DisableReading()
      requires this in poller.live
      modifies this`events, this`index, poller`channels, poller`kernel, poller`fatal
      ensures poller.View() == Registries.SetEvents(old(poller.View()), this, old(events).WithoutReading())
      ensures events == old(events).WithoutReading() && index == NextIndex(old(index), events)
    {
      SetEvents(events.WithoutReading());
    }

    method EnableWriting()
      requires this in poller.live
      modifies this`events, this`index, poller`channels, poller`kernel, poller`fatal
      ensures poller.View() == Registries.SetEvents(old(poller.View()), this, old(events).WithWriting())
      ensures events == old(events).WithWriting() && index == NextIndex(old(index), events)
    {
      SetEvents(events.WithWriting());
    }

    method DisableWriting()
      requires this in poller.live
      modifies this`events, this`index, poller`channels, poller`kernel, poller`fatal
      ensures poller.View() == Registries.SetEvents(old(poller.View()), this, old(events).WithoutWriting())
      ensures events == old(events).WithoutWriting() && index == NextIndex(old(index), events)
    {
      SetEvents(events.WithoutWriting());
    }

    method DisableAll()
      requires this in poller.live
      modifies this`events, this`index, poller`channels, poller`kernel, poller`fatal
      ensures poller.View() == Registries.SetEvents(old(poller.View()), this, NO_EVENT)
      ensures events == NO_EVENT && index == NextIndex(old(index), events)
    {
      SetEvents(NO_EVENT);
    }

    method Remove()
      requires this in poller.live
      modifies this`index, poller`channels, poller`kernel, poller`fatal
      ensures poller.View() == Registries.RemoveChannel(old(poller.View()), this)
      ensures index == New
    {
      poller.RemoveChannel(this);
      assert poller.View().chans[this] == Chan(fd, events, index);
    }
  }

  class EPollPoller {
    var channels: map<int, Channel>
    var eventListSize: nat
    ghost var live: set<Channel>
    ghost var kernel: map<int, Interest<Channel>>
    ghost var fatal: bool

    ghost function View(): Registry<Channel>
      reads this, live
    {
      Registry(map c | c in live :: Chan(c.fd, c.events, c.index), channels, kernel, fatal)
    }

    constructor ()
      ensures View() == Empty() && live == {} && eventListSize == 16
    {
      channels, eventListSize := map[], 16;
      live, kernel, fatal := {}, map[], false;
    }

    method Update(op: CtlOp, channel: Channel)
      requires channel in live
      modifies this`kernel, this`fatal
      ensures View() == Ctl(old(View()), op, channel)
    {
      ghost var present := channel.fd in kernel;
      if op == CtlAdd {
        fatal := fatal || present;
        kernel := if present then kernel else kernel[channel.fd := Interest(channel, channel.events)];
      } else if op == CtlMod {
        fatal := fatal || !present;
        kernel := if present then kernel[channel.fd := Interest(channel, channel.events)] else kernel;
      } else {
        fatal := fatal || !present;
        kernel := kernel - {channel.fd};
      }
    }

    method SetChannelIndex(channel: Channel, index: Index)
      requires channel in live
      modifies channel`index
      ensures View() == SetIndex(old(View()), channel, index)
      ensures channel.index == index
    {
      channel.index := index;
    }

    method UpdateChannel(channel: Channel)
      requires channel in live
      modifies channel`index, this`channels, this`kernel, this`fatal
      ensures View() == Registries.UpdateChannel(old(View()), channel)
      ensures channel.index == NextIndex(old(channel.index), channel.events)
    {
      var index := channel.index;
      if index == New || index == Deleted {
        if index == New {
          channels := channels[channel.fd := channel];
        }
        SetChannelIndex(channel, Added);
        Update(CtlAdd, channel);
      } else if channel.events.IsNone() {
        Update(CtlDel, channel);
        SetChannelIndex(channel, Deleted);
      } else {
        Update(CtlMod, channel);
      }
    }

    method RemoveChannel(channel: Channel)
      requires channel in live
      modifies channel`index, this`channels, this`kernel, this`fatal
      ensures View() == Registries.RemoveChannel(old(View()), channel)
      ensures channel.index == New
    {
      channels := channels - {channel.fd};
      if channel.index == Added {
        Update(CtlDel, channel);
      }
      SetChannelIndex(channel, New);
    }

    /** Poller.cc: the fd map knows this very channel. Under the invariant that is what index says. */
    method HasChannel(channel: Channel) returns (found: bool)
      requires channel in live
      ensures found == Registries.HasChannel(View(), channel)
      ensures Inv(View()) ==> found == (channel.index != New)
    {
      found := channel.fd in channels && channels[channel.fd] == channel;
      if Inv(View()) {
        assert Agrees(View(), channel);
      }
    }

    /** Copies the kernel's reports to the channels and lists the channels in report order. */
    method FillActiveChannels(reports: seq<Report<Channel>>, active: seq<Channel>)
      returns (activeChannels: seq<Channel>)
      requires KernelMayReport(View(), reports)
      modifies (set r | r in reports :: r.chan)`revents
      ensures |activeChannels| == |active| + |reports| && active <= activeChannels
      ensures forall i :: 0 <= i < |reports| ==>
        activeChannels[|active| + i] == reports[i].chan && reports[i].chan.revents == reports[i].mask
    {
      activeChannels := active;
      for i := 0 to |reports|
        invariant |activeChannels| == |active| + i && active <= activeChannels
        invariant forall j :: 0 <= j < i ==>
          activeChannels[|active| + j] == reports[j].chan && reports[j].chan.revents == reports[j].mask
      {
        var channel := reports[i].chan;
        channel.revents := reports[i].mask;
        activeChannels := activeChannels + [channel];
      }
    }

    /** One epoll_wait answer: the reports, or an error or time-out, which report nothing. Everything
        handed to the loop is a live registered channel carrying a mask it asked for. */
    method Poll(reports: seq<Report<Channel>>) returns (activeChannels: seq<Channel>)
      requires Inv(View()) && KernelMayReport(View(), reports) && |reports| <= eventListSize
      modifies this`eventListSize, (set r | r in reports :: r.chan)`revents
      ensures View() == old(View())
      ensures |activeChannels| == |reports|
      ensures forall i :: 0 <= i < |reports| ==>
        && activeChannels[i] == reports[i].chan && activeChannels[i].revents == reports[i].mask
        && activeChannels[i] in live && activeChannels[i].index == Added
        && Reportable(activeChannels[i].revents, activeChannels[i].events)
      ensures forall i, j :: 0 <= i < j < |activeChannels| ==> activeChannels[i] != activeChannels[j]
      ensures eventListSize == NextListSize(old(eventListSize), |reports|)
      ensures |reports| > 0 ==> |reports| < eventListSize
    {
      forall i: nat | i < |reports|
        ensures reports[i].chan in live && reports[i].chan.index == Added
        ensures Reportable(reports[i].mask, reports[i].chan.events)
      {
        ReportsAreRegistered(View(), reports, i);
      }
      activeChannels := FillActiveChannels(reports, []);
      if |reports| > 0 && |reports| == eventListSize {
        eventListSize := eventListSize * 2;
      }
    }
  }
}
