/**
 * cStatusMonitor: VDR's channel-switch, replay and volume notifications,
 * turned into submissions to the engine. VDR itself is an input here: the
 * channel a switch lands on (if the number names one) and the still-picture
 * control in front (if one of ours runs).
 */
module StatusMonitor {
  import opened Wrappers
  import opened Commands
  import opened VdrKeys
  import opened CecRemote
  import opened CecRemoteLemmas
  import opened ConfigFileParser
  import opened CecControl

  /** What is playing, as far as the monitor knows. */
  datatype MonitorStatus = Unknown | Radio | Tv | Replaying

  /** The monitor's fields. */
  datatype MonitorState = MonitorState(status: MonitorStatus, volume: int)

  /** A channel, reduced to its video PID: 0 marks a radio channel. */
  datatype Channel = Channel(vpid: int)

  /** What a notification does: the monitor afterwards, and what it submitted. */
  datatype Reaction = Reaction(next: MonitorState, pushes: seq<Push>)

  /** The field initialisers: status UNKNOWN, volume 0. */
  function InitialState(): MonitorState { MonitorState(Unknown, 0) }

  /** The volume SetVolume starts from when it knows none. */
  const DefaultVolume: int := 128

  /**
   * ChannelSwitch. Only a switch of the primary device to an existing channel
   * counts; it records radio or TV, and submits the matching list only when
   * the kind changes and the monitor already knew what was playing (the
   * first switch is covered by the start list).
   */
  function ChannelSwitchR(m: MonitorState, opts: GlobalOptions, primary: bool, channel: Option<Channel>): (r: Reaction)
    ensures !primary || channel.None? ==> r == Reaction(m, [])
    ensures primary && channel.Some? ==> r.next.status == (if channel.value.vpid == 0 then Radio else Tv)
    ensures r.next.volume == m.volume
    ensures r.pushes != [] <==> m.status != Unknown && r.next.status != m.status
    ensures r.pushes != [] ==>
      r.pushes == [PushList(if r.next.status == Radio then opts.onSwitchToRadio else opts.onSwitchToTv)]
  {
    if !primary || channel.None? then Reaction(m, [])
    else
      var kind := if channel.value.vpid == 0 then Radio else Tv;
      var list := if kind == Radio then opts.onSwitchToRadio else opts.onSwitchToTv;
      if m.status == kind then Reaction(m, [])
      else Reaction(m.(status := kind), if m.status != Unknown then [PushList(list)] else [])
  }

  /** Replaying: the start of a replay is recorded and announced once. */
  function ReplayingR(m: MonitorState, opts: GlobalOptions, on: bool): (r: Reaction)
    ensures r.next.volume == m.volume
    ensures r.next.status == (if on then Replaying else m.status)
    ensures r.pushes != [] <==> on && m.status != Replaying
    ensures r.pushes != [] ==> r.pushes == [PushList(opts.onSwitchToReplay)]
  {
    if on && m.status != Replaying then Reaction(m.(status := Replaying), [PushList(opts.onSwitchToReplay)])
    else Reaction(m, [])
  }

  /** The volume SetVolume arrives at: a relative change applies to the
      known volume, or to 128 while none is known. */
  function NewVolume(current: int, volume: int, absolute: bool): (v: int)
    ensures absolute ==> v == volume
    ensures !absolute && current > 0 ==> v - current == volume
    ensures !absolute && current <= 0 ==> v - DefaultVolume == volume
  {
    if absolute then volume
    else (if current > 0 then current else DefaultVolume) + volume
  }

  /** The key press SetVolume sends to the audio device. */
  function VolumeKeyCmd(opts: GlobalOptions, up: bool): Cmd
  {
    NewCmd(VdrKeyPress, if up then KeyVolUp else KeyVolDn, Some(opts.audioDevice), "")
  }

  /**
   * SetVolume. A call while the volume is -1, or one that does not change the
   * volume, submits nothing. Any other call sends one volume key to the audio
   * device, up exactly when the volume rose, and when a still-picture control
   * runs also that menu's volume list for the same direction. In every case
   * the monitor ends at the new volume.
   */
  function SetVolumeR(m: MonitorState, opts: GlobalOptions, volume: int, absolute: bool, control: Option<Menu>): (r: Reaction)
    ensures r.next == m.(volume := NewVolume(m.volume, volume, absolute))
    ensures r.pushes == [] <==> m.volume == -1 || r.next.volume == m.volume
    ensures r.pushes != [] ==>
      r.pushes[0].PushOne? && r.pushes[0].cmd.kind == VdrKeyPress &&
      r.pushes[0].cmd.device == opts.audioDevice &&
      (r.pushes[0].cmd.val == KeyVolUp <==> r.next.volume > m.volume) &&
      (r.pushes[0].cmd.val == KeyVolDn <==> r.next.volume < m.volume)
    ensures r.pushes != [] ==> |r.pushes| == (if control.Some? then 2 else 1)
    ensures r.pushes != [] && control.Some? ==>
      r.pushes[1] == PushList(if r.next.volume > m.volume then control.value.onVolumeUp else control.value.onVolumeDown)
  {
    var newvol := NewVolume(m.volume, volume, absolute);
    if m.volume == -1 || newvol == m.volume then Reaction(m.(volume := newvol), [])
    else
      var up := newvol > m.volume;
      var menuList := if control.Some? then
        [PushList(if up then control.value.onVolumeUp else control.value.onVolumeDown)] else [];
      Reaction(m.(volume := newvol), [PushOne(VolumeKeyCmd(opts, up))] + menuList)
  }

  /** The same channel kind twice in a row: the second switch does nothing. */
  lemma SwitchRepeatSilent(m: MonitorState, opts: GlobalOptions, primary: bool, channel: Option<Channel>, other: Channel)
    requires channel.Some? && (other.vpid == 0 <==> channel.value.vpid == 0)
    ensures var r := ChannelSwitchR(m, opts, primary, channel);
      ChannelSwitchR(r.next, opts, primary, Some(other)) == Reaction(r.next, [])
  {
  }

  /** From the initial state (volume 0, so no ignored first call) a relative
      change starts from 128, and its key goes out unless the new volume is
      0, i.e. unless the change is -128; a change of 0 still sends a key. */
  lemma FirstVolumeChangeSent(opts: GlobalOptions, volume: int, control: Option<Menu>)
    ensures var r := SetVolumeR(InitialState(), opts, volume, false, control);
      r.next.volume == DefaultVolume + volume &&
      (r.pushes != [] <==> volume != -DefaultVolume)
  {
  }

  class Monitor {
    const remote: Remote
    const options: GlobalOptions
    var status: MonitorStatus
    var volume: int

    function State(): MonitorState
      reads this
    {
      MonitorState(status, volume)
    }

    constructor (remote: Remote, options: GlobalOptions)
      ensures this.remote == remote && this.options == options
      ensures State() == InitialState()
    {
      this.remote := remote;
      this.options := options;
      status := Unknown;
      volume := 0;
    }

    method ChannelSwitch(primary: bool, channel: Option<Channel>)
      modifies this, remote
      ensures var r := ChannelSwitchR(old(State()), options, primary, channel);
        State() == r.next && remote.Snapshot() == DeliverT(old(remote.Snapshot()), r.pushes)
    {
      if primary && channel.Some? {
        if channel.value.vpid == 0 {
          if status != Radio {
            if status != Unknown {
              remote.PushCmdQueue(options.onSwitchToRadio);
            }
            status := Radio;
          }
        } else {
          if status != Tv {
            if status != Unknown {
              remote.PushCmdQueue(options.onSwitchToTv);
            }
            status := Tv;
          }
        }
      }
    }

    method Replay(on: bool)
      modifies this, remote
      ensures var r := ReplayingR(old(State()), options, on);
        State() == r.next && remote.Snapshot() == DeliverT(old(remote.Snapshot()), r.pushes)
    {
      if on {
        if status != Replaying {
          status := Replaying;
          remote.PushCmdQueue(options.onSwitchToReplay);
        }
      }
    }

    /** `control` is the still-picture control in front, or null when none
        runs or the one in front is not ours. */
    method SetVolume(vol: int, absolute: bool, control: Control?)
      modifies this, remote
      ensures var menu := if control == null then None else Some(control.config);
        var r := SetVolumeR(old(State()), options, vol, absolute, menu);
        State() == r.next && remote.Snapshot() == DeliverT(old(remote.Snapshot()), r.pushes)
    {
      var newvol := DefaultVolume;
      if volume > 0 {
        newvol := volume;
      }
      if !absolute {
        newvol := newvol + vol;
      } else {
        newvol := vol;
      }
      if volume == -1 {
        volume := newvol;
        return;
      }
      if newvol == volume {
        return;
      }
      ghost var e0 := remote.Snapshot();
      var up := newvol > volume;
      if up {
        remote.PushCmd(NewCmd(VdrKeyPress, KeyVolUp, Some(options.audioDevice), ""));
      } else {
        remote.PushCmd(NewCmd(VdrKeyPress, KeyVolDn, Some(options.audioDevice), ""));
      }
      ghost var key := [PushOne(VolumeKeyCmd(options, up))];
      assert remote.Snapshot() == DeliverT(e0, key);
      if control == null {
        assert key + [] == key;
        volume := newvol;
        return;
      }
      var menuitem := control.config;
      ghost var e1 := remote.Snapshot();
      if up {
        remote.PushCmdQueue(menuitem.onVolumeUp);
      } else {
        remote.PushCmdQueue(menuitem.onVolumeDown);
      }
      ghost var list := [PushList(if up then menuitem.onVolumeUp else menuitem.onVolumeDown)];
      assert remote.Snapshot() == DeliverT(e1, list);
      DeliverAppend(e0, key, list);
      volume := newvol;
    }
  }
}
