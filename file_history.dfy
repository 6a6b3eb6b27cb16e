/** The recent-file history: an ordered list of DisplayState objects, most
    recently used first. */
module FileHistory {
  import opened DisplayStates

  /** The field values of a list of states, in list order. */
  function DataOf(ss: seq<DisplayState>): (r: seq<DisplayStateData>)
    reads ss
  {
    seq(|ss|, i requires 0 <= i < |ss| reads ss => ss[i].data)
  }

  class FileHistoryList {
    var states: seq<DisplayState>

    /** Every state's toc buffer is well formed. */
    predicate Valid()
      reads this, states
    {
      AllTocStatesValid(Entries())
    }

    /** The entries of the list, in order. */
    function Entries(): seq<DisplayStateData>
      reads this, states
    {
      DataOf(states)
    }

    constructor ()
      ensures states == [] && Valid()
    {
      states := [];
    }

    /** `FileHistoryList::Get`: the state at `index`, or null past the end. */
    method Get(index: int) returns (s: DisplayState?)
      ensures 0 <= index < |states| ==> s == states[index]
      ensures !(0 <= index < |states|) ==> s == null
    {
      if 0 <= index < |states| {
        s := states[index];
      } else {
        s := null;
      }
    }

    /** `FileHistoryList::Append`: add a state at the end of the list. */
    method Append(s: DisplayState)
      modifies this
      ensures states == old(states) + [s]
      ensures Entries() == old(Entries()) + [s.data]
    {
      states := states + [s];
    }
  }
}
