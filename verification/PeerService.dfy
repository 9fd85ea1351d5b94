/** Requests applied one after another to the stored board, as its keeper does: the boards that come
    of it are a run, so all that holds of runs holds of what is stored. */
module PeerService {
  import opened PeerState
  import opened PeerStep
  import opened PeerInvariant
  import opened PeerRuns
  import opened PeerStore
  import opened PeerEngine

  /** The board after the requests, by the specification alone. */
  ghost function BoardAfter(inputs: seq<Input>): Board {
    if inputs == [] then NEW_BOARD else Next(BoardAfter(inputs[..|inputs| - 1]), inputs[|inputs| - 1])
  }

  ghost function Boards(inputs: seq<Input>): seq<Board> {
    seq(|inputs| + 1, i requires 0 <= i <= |inputs| => BoardAfter(inputs[..i]))
  }

  /** Each request draws ids that are unused when it comes. */
  ghost predicate FreshThroughout(inputs: seq<Input>) {
    forall k :: 0 <= k < |inputs| ==> FreshFor(BoardAfter(inputs[..k]), inputs[k].ids)
  }

  lemma BoardsAreARun(inputs: seq<Input>)
    requires FreshThroughout(inputs)
    ensures Run(Boards(inputs), inputs)
  {
    hide FreshFor, Next;
    forall i | 0 <= i < |inputs| ensures Boards(inputs)[i + 1] == Next(Boards(inputs)[i], inputs[i]) {
      assert inputs[..i + 1][..i] == inputs[..i];
    }
    assert inputs[..0] == [];
  }

  lemma GoodIsKeyed(b: Board)
    requires Inv(b)
    ensures Keyed(b)
  {
  }

  /** Every store that comes of applying requests holds the board the specification says, and that
      board is a good one. */
  method ApplyAll(inputs: seq<Input>) returns (store: Store?)
    requires FreshThroughout(inputs)
    ensures store != null ==> store.Valid()
    ensures (if store == null then NEW_BOARD else store.View()) == BoardAfter(inputs)
    ensures Inv(BoardAfter(inputs)) && Run(Boards(inputs), inputs)
  {
    hide Store.View, Store.Valid, Inv, Step, Keyed, FreshThroughout, AllNew, Run;
    store := null;
    BoardsAreARun(inputs);
    assert inputs[..0] == [];
    for i := 0 to |inputs|
      invariant store != null ==> store.Valid()
      invariant (if store == null then NEW_BOARD else store.View()) == BoardAfter(inputs[..i])
    {
      RunIsSafe(Boards(inputs), inputs, i);
      GoodIsKeyed(BoardAfter(inputs[..i]));
      assert inputs[..i + 1][..i] == inputs[..i];
      var next, err, event := Apply(store, inputs[i]);
      store := next;
    }
    assert inputs[..|inputs|] == inputs;
    RunIsSafe(Boards(inputs), inputs, |inputs|);
  }
}
