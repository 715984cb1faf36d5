/** Lists of validation errors, built by successive conditional appends,
    and the response a controller builds from them.

    The validators append message strings. The properties are easier to
    state over error codes: `Render` turns a list of codes into the list of
    their messages, and the counting lemmas below say how often a code
    occurs in a list built by a run of `AddIf`s. Every lemma here is stated
    over arbitrary conditions and codes, so that a validator's own lemmas
    only have to instantiate them. */
module ErrorLists {
  import opened Tallies

  /** Different codes have different messages. */
  ghost predicate Injective<E(!new)>(message: E -> string) {
    forall a, b :: message(a) == message(b) ==> a == b
  }

  /** One `if (cond) errors.add(e)`. */
  function AddIf<E>(errors: seq<E>, cond: bool, e: E): seq<E> {
    if cond then errors + [e] else errors
  }

  /** How many copies of `x` one `AddIf(_, cond, e)` adds. */
  function Hit<E(==)>(cond: bool, e: E, x: E): nat {
    if cond && x == e then 1 else 0
  }

  lemma AddIfCount<E>(errors: seq<E>, cond: bool, e: E, x: E)
    ensures multiset(AddIf(errors, cond, e))[x] == multiset(errors)[x] + Hit(cond, e, x)
  {
  }

  /** Three checks in a row add one copy of `x` for each of them that fails
      with code `x`. */
  lemma CountThree<E>(start: seq<E>, x: E, c1: bool, e1: E, c2: bool, e2: E, c3: bool, e3: E)
    ensures multiset(AddIf(AddIf(AddIf(start, c1, e1), c2, e2), c3, e3))[x]
            == multiset(start)[x] + Hit(c1, e1, x) + Hit(c2, e2, x) + Hit(c3, e3, x)
  {
    var r1 := AddIf(start, c1, e1);
    var r2 := AddIf(r1, c2, e2);
    AddIfCount(start, c1, e1, x);
    AddIfCount(r1, c2, e2, x);
    AddIfCount(r2, c3, e3, x);
  }

  /** The same for four checks in a row. */
  lemma CountFour<E>(start: seq<E>, x: E, c1: bool, e1: E, c2: bool, e2: E, c3: bool, e3: E, c4: bool, e4: E)
    ensures multiset(AddIf(AddIf(AddIf(AddIf(start, c1, e1), c2, e2), c3, e3), c4, e4))[x]
            == multiset(start)[x] + Hit(c1, e1, x) + Hit(c2, e2, x) + Hit(c3, e3, x) + Hit(c4, e4, x)
  {
    var r3 := AddIf(AddIf(AddIf(start, c1, e1), c2, e2), c3, e3);
    CountThree(start, x, c1, e1, c2, e2, c3, e3);
    AddIfCount(r3, c4, e4, x);
  }

  /** The messages of a list of codes, in order. */
  function Render<E>(codes: seq<E>, message: E -> string): (r: seq<string>)
    ensures |r| == |codes|
  {
    if codes == [] then [] else Render(codes[..|codes| - 1], message) + [message(codes[|codes| - 1])]
  }

  /** Rendering commutes with a conditional append. */
  lemma RenderAddIf<E>(codes: seq<E>, cond: bool, e: E, message: E -> string)
    ensures Render(AddIf(codes, cond, e), message) == AddIf(Render(codes, message), cond, message(e))
  {
    if cond {
      assert (codes + [e])[..|codes|] == codes;
    }
  }

  /** Rendering commutes with concatenation. */
  lemma {:induction false} RenderAppend<E>(a: seq<E>, b: seq<E>, message: E -> string)
    ensures Render(a + b, message) == Render(a, message) + Render(b, message)
  {
    if b != [] {
      var init := b[..|b| - 1];
      assert (a + b)[..|a + b| - 1] == a + init;
      RenderAppend(a, init, message);
    } else {
      assert a + b == a;
    }
  }

  /** Rendering a rearrangement of the codes gives a rearrangement of the
      messages. */
  lemma {:induction false} RenderPermutation<E>(a: seq<E>, b: seq<E>, message: E -> string)
    requires multiset(a) == multiset(b)
    ensures multiset(Render(a, message)) == multiset(Render(b, message))
    decreases |a|
  {
    if a == [] {
      assert |b| == |multiset(b)| == 0;
    } else {
      var k := PermutationSplit(a, b);
      var before, after := b[..k], b[k + 1..];
      RenderPermutation(a[..|a| - 1], before + after, message);
      assert b == before + [b[k]] + after;
      RenderAppend(before + [b[k]], after, message);
      RenderAppend(before, [b[k]], message);
      RenderAppend(before, after, message);
      assert Render([b[k]], message) == [message(b[k])] by {
        assert [b[k]][..0] == [];
      }
      var x := multiset{message(b[k])};
      calc {
        multiset(Render(b, message));
        multiset(Render(before, message)) + x + multiset(Render(after, message));
        multiset(Render(before + after, message)) + x;
        multiset(Render(a[..|a| - 1], message)) + x;
        multiset(Render(a, message));
      }
    }
  }

  lemma RenderThree<E>(start: seq<E>, message: E -> string, c1: bool, e1: E, c2: bool, e2: E, c3: bool, e3: E)
    ensures Render(AddIf(AddIf(AddIf(start, c1, e1), c2, e2), c3, e3), message)
            == AddIf(AddIf(AddIf(Render(start, message), c1, message(e1)), c2, message(e2)), c3, message(e3))
  {
    var r1 := AddIf(start, c1, e1);
    var r2 := AddIf(r1, c2, e2);
    RenderAddIf(start, c1, e1, message);
    RenderAddIf(r1, c2, e2, message);
    RenderAddIf(r2, c3, e3, message);
  }

  lemma RenderFour<E>(start: seq<E>, message: E -> string, c1: bool, e1: E, c2: bool, e2: E, c3: bool, e3: E, c4: bool, e4: E)
    ensures Render(AddIf(AddIf(AddIf(AddIf(start, c1, e1), c2, e2), c3, e3), c4, e4), message)
            == AddIf(AddIf(AddIf(AddIf(Render(start, message), c1, message(e1)), c2, message(e2)), c3, message(e3)), c4, message(e4))
  {
    var r3 := AddIf(AddIf(AddIf(start, c1, e1), c2, e2), c3, e3);
    RenderThree(start, message, c1, e1, c2, e2, c3, e3);
    RenderAddIf(r3, c4, e4, message);
  }

  /** With distinct messages, a message occurs in the rendered list exactly
      as often as its code occurs in the codes. */
  lemma {:induction false} RenderCount<E(!new)>(codes: seq<E>, message: E -> string, e: E)
    requires Injective(message)
    ensures multiset(Render(codes, message))[message(e)] == multiset(codes)[e]
  {
    if codes != [] {
      var init := codes[..|codes| - 1];
      RenderCount(init, message, e);
      assert codes == init + [codes[|codes| - 1]];
    }
  }

  /** The codes appear in order of `rank`, which numbers the checks in the
      order the validator runs them. */
  ghost predicate Ordered<E>(codes: seq<E>, rank: E -> nat) {
    forall i, j :: 0 <= i < j < |codes| ==> rank(codes[i]) <= rank(codes[j])
  }

  /** No code of the list ranks above `k`. */
  ghost predicate RanksAtMost<E>(codes: seq<E>, rank: E -> nat, k: nat) {
    forall i :: 0 <= i < |codes| ==> rank(codes[i]) <= k
  }

  /** Appending a code that ranks no lower than the list keeps it in order. */
  lemma AddIfOrdered<E>(codes: seq<E>, cond: bool, e: E, rank: E -> nat, k: nat)
    requires Ordered(codes, rank) && RanksAtMost(codes, rank, k) && k <= rank(e)
    ensures Ordered(AddIf(codes, cond, e), rank) && RanksAtMost(AddIf(codes, cond, e), rank, rank(e))
  {
  }

  lemma OrderedThree<E>(start: seq<E>, rank: E -> nat, k: nat, c1: bool, e1: E, c2: bool, e2: E, c3: bool, e3: E)
    requires Ordered(start, rank) && RanksAtMost(start, rank, k)
    requires k <= rank(e1) <= rank(e2) <= rank(e3)
    ensures Ordered(AddIf(AddIf(AddIf(start, c1, e1), c2, e2), c3, e3), rank)
    ensures RanksAtMost(AddIf(AddIf(AddIf(start, c1, e1), c2, e2), c3, e3), rank, rank(e3))
  {
    var r1 := AddIf(start, c1, e1);
    var r2 := AddIf(r1, c2, e2);
    AddIfOrdered(start, c1, e1, rank, k);
    AddIfOrdered(r1, c2, e2, rank, rank(e1));
    AddIfOrdered(r2, c3, e3, rank, rank(e2));
  }

  lemma OrderedFour<E>(start: seq<E>, rank: E -> nat, k: nat, c1: bool, e1: E, c2: bool, e2: E, c3: bool, e3: E, c4: bool, e4: E)
    requires Ordered(start, rank) && RanksAtMost(start, rank, k)
    requires k <= rank(e1) <= rank(e2) <= rank(e3) <= rank(e4)
    ensures Ordered(AddIf(AddIf(AddIf(AddIf(start, c1, e1), c2, e2), c3, e3), c4, e4), rank)
    ensures RanksAtMost(AddIf(AddIf(AddIf(AddIf(start, c1, e1), c2, e2), c3, e3), c4, e4), rank, rank(e4))
  {
    var r3 := AddIf(AddIf(AddIf(start, c1, e1), c2, e2), c3, e3);
    OrderedThree(start, rank, k, c1, e1, c2, e2, c3, e3);
    AddIfOrdered(r3, c4, e4, rank, rank(e3));
  }

  /** The body of a validation response. */
  datatype ValidationResponse = ValidationResponse(success: bool, messages: seq<string>)

  /** What each controller answers: success with one confirmation message
      when there are no errors, otherwise failure carrying the errors verbatim.
      The response never has an empty message list. */
  function Respond(errors: seq<string>, confirmation: string): (r: ValidationResponse)
    ensures r.success <==> errors == []
    ensures r.messages != []
    ensures r.success ==> r.messages == [confirmation]
    ensures !r.success ==> r.messages == errors
  {
    if errors == [] then ValidationResponse(true, [confirmation])
    else ValidationResponse(false, errors)
  }
}
