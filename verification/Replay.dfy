/** The replay window over inbound message identifiers: a bounded deque and a set. */
module Replay {
  import opened Domain

  const WINDOW: nat := 1024

  /** The last accepted identifiers that are still remembered. */
  function Recent(history: seq<Id>): seq<Id> {
    if |history| <= WINDOW then history else history[|history| - WINDOW..]
  }

  /** Equal accepted identifiers are more than a window apart. */
  ghost predicate Spaced(history: seq<Id>) {
    forall i, j :: 0 <= i < j < |history| && history[i] == history[j] ==> j - i > WINDOW
  }

  /** The accepted identifiers out of a sequence of inbound ones. */
  function Accepted(inbound: seq<Id>): (history: seq<Id>)
    ensures Spaced(history)
    ensures |history| <= |inbound|
  {
    if inbound == [] then []
    else
      var before, id := Accepted(inbound[..|inbound| - 1]), inbound[|inbound| - 1];
      if id in Recent(before) then before else before + [id]
  }

  /** A spaced history's window never holds an identifier twice. */
  lemma RecentDistinct(history: seq<Id>)
    requires Spaced(history)
    ensures forall i, j :: 0 <= i < j < |Recent(history)| ==> Recent(history)[i] != Recent(history)[j]
  {}

  function Elements(s: seq<Id>): set<Id> {
    set id <- s
  }

  lemma ElementsOfAppended(s: seq<Id>, id: Id)
    ensures Elements(s + [id]) == Elements(s) + {id}
  {
    assert forall x :: x in s + [id] <==> x in s || x == id;
  }

  lemma ElementsOfTail(s: seq<Id>)
    requires s != [] && forall i, j :: 0 <= i < j < |s| ==> s[i] != s[j]
    ensures Elements(s[1..]) == Elements(s) - {s[0]}
  {
    assert s == [s[0]] + s[1..];
    assert s[0] !in s[1..];
  }

  /** Accepting slides the window: a full one loses its oldest identifier, and that one only. */
  lemma WindowSlides(history: seq<Id>, id: Id)
    requires Spaced(history)
    ensures var r := Recent(history); var full := |r| == WINDOW;
      && Recent(history + [id]) == (if full then r[1..] else r) + [id]
      && Elements(Recent(history + [id])) == (if full then Elements(r) - {r[0]} else Elements(r)) + {id}
  {
    RecentDistinct(history);
    var r := Recent(history);
    var slid := if |r| == WINDOW then r[1..] else r;
    RecentSlides(history, id);
    ElementsOfAppended(slid, id);
    if |r| == WINDOW {
      ElementsOfTail(r);
    }
  }

  lemma RecentSlides(history: seq<Id>, id: Id)
    ensures var r := Recent(history);
      Recent(history + [id]) == (if |r| == WINDOW then r[1..] else r) + [id]
  {}

  lemma AcceptedGrows(inbound: seq<Id>, id: Id)
    ensures var before := Accepted(inbound);
      Accepted(inbound + [id]) == if id in Recent(before) then before else before + [id]
    ensures Accepted([]) == []
  {}

  /** One more inbound identifier, in terms of the window. */
  lemma Remembered(inbound: seq<Id>, id: Id)
    ensures var before, after := Accepted(inbound), Accepted(inbound + [id]);
      var r := Recent(before);
      if id in r then after == before
      else
        && after == before + [id]
        && Recent(after) == (if |r| == WINDOW then r[1..] else r) + [id]
        && Elements(Recent(after)) == (if |r| == WINDOW then Elements(r) - {r[0]} else Elements(r)) + {id}
  {
    AcceptedGrows(inbound, id);
    WindowSlides(Accepted(inbound), id);
  }

  class Window {
    var ordered: seq<Id>
    var seen: set<Id>
    ghost var inbound: seq<Id>

    ghost predicate Valid()
      reads this
    {
      && ordered == Recent(Accepted(inbound))
      && seen == Elements(ordered)
    }

    constructor ()
      ensures Valid() && inbound == []
    {
      ordered, seen, inbound := [], {}, [];
    }

    /** Rejected exactly when the identifier is among the last 1,024 accepted ones. */
    method Remember(id: Id) returns (accepted: bool)
      requires Valid()
      modifies this
      ensures Valid() && inbound == old(inbound) + [id]
      ensures accepted <==> id !in Recent(Accepted(old(inbound)))
      ensures Accepted(inbound) == Accepted(old(inbound)) + if accepted then [id] else []
    {
      Remembered(inbound, id);
      ghost var history := Accepted(inbound);
      assert ordered == Recent(history);
      inbound := inbound + [id];
      accepted := id !in seen;
      if accepted {
        if |ordered| == WINDOW {
          seen := seen - {ordered[0]};
          ordered := ordered[1..];
        }
        ordered := ordered + [id];
        seen := seen + {id};
      }
    }
  }

  /** The window is the last 1,024 accepted identifiers, in their order. */
  lemma RecentIsLast(history: seq<Id>)
    ensures var r := Recent(history);
      && |r| == (if |history| < 1024 then |history| else 1024)
      && r == history[|history| - |r|..]
  {}
}
