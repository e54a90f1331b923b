/** The state machine every client transport shares (ClientConnector):
    four states, and a listener bus that receives state changes and
    messages in order. */
module ClientConnectors {

  datatype State = Closed | Connecting | Ready | Closing

  /** What listeners receive. */
  datatype ClientEvent =
    | StateChanged(oldState: State, newState: State)
    | MessageReceived(message: string)

  /** The events a change from `from` to `to` fires: none when nothing
      changes, else one carrying both states in that order. */
  function Transition(from: State, to: State): (evs: seq<ClientEvent>)
    ensures |evs| <= 1
    ensures evs == [] <==> from == to
    ensures forall e :: e in evs ==> e == StateChanged(from, to)
  {
    if from == to then [] else [StateChanged(from, to)]
  }

  /** One message event per message, in order. */
  function MessageEvents(msgs: seq<string>): (evs: seq<ClientEvent>)
    ensures |evs| == |msgs|
    ensures forall i :: 0 <= i < |msgs| ==> evs[i] == MessageReceived(msgs[i])
  {
    if msgs == [] then [] else [MessageReceived(msgs[0])] + MessageEvents(msgs[1..])
  }

  lemma MessageEventsAppend(msgs: seq<string>, m: string)
    ensures MessageEvents(msgs + [m]) == MessageEvents(msgs) + [MessageReceived(m)]
  {
  }

  class ClientConnector {
    var state: State
    /** Everything fired to the listeners so far, oldest first. */
    var events: seq<ClientEvent>

    constructor ()
      ensures state == Closed && events == []
    {
      state := Closed;
      events := [];
    }

    function IsStarted(): (b: bool)
      reads this
      ensures b <==> state == Connecting || state == Ready
    {
      state != Closed && state != Closing
    }

    method ChangeState(newState: State)
      modifies this
      ensures state == newState
      ensures events == old(events) + Transition(old(state), newState)
    {
      if state != newState {
        var evt := StateChanged(state, newState);
        state := newState;
        events := events + [evt];
      }
    }

    /** Fires one message event per message, in order (the transports'
        loop over the messages a frame delivered). */
    method FireMessages(msgs: seq<string>)
      modifies this
      ensures state == old(state)
      ensures events == old(events) + MessageEvents(msgs)
    {
      for k := 0 to |msgs|
        invariant state == old(state)
        invariant events == old(events) + MessageEvents(msgs[..k])
      {
        assert msgs[..k + 1] == msgs[..k] + [msgs[k]];
        MessageEventsAppend(msgs[..k], msgs[k]);
        FireMessage(msgs[k]);
      }
      assert msgs[..|msgs|] == msgs;
    }

    method FireMessage(message: string)
      modifies this
      ensures state == old(state)
      ensures events == old(events) + [MessageReceived(message)]
    {
      events := events + [MessageReceived(message)];
    }
  }
}
