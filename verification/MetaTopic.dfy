/** src/spec/metatopic.rs: the lists kept as metatopic values. */
module MetaTopic {
  import opened Basics

  datatype ClientPublisherMTE = ClientPublisherMTE(topic: string, uid: u32)

  datatype ClientMTE = ClientMTE(id: string, conn: string)

  /** The three variants the server builds. */
  datatype MetaTopicValue =
    | ClientPublisher(pubs: seq<ClientPublisherMTE>)
    | ServerPublisher(pubs: seq<ClientPublisherMTE>)
    | Client(conns: seq<ClientMTE>)
  {
    function Merge(other: MetaTopicValue): MetaTopicValue {
      match (this, other)
      case (ClientPublisher(xs), ClientPublisher(ys)) => ClientPublisher(xs + ys)
      case (ServerPublisher(xs), ServerPublisher(ys)) => ServerPublisher(xs + ys)
      case (Client(xs), Client(ys)) => Client(xs + ys)
      case _ => this
    }

    function Reduce(other: MetaTopicValue): MetaTopicValue {
      match (this, other)
      case (ClientPublisher(xs), ClientPublisher(ys)) => ClientPublisher(Without(xs, ys))
      case (ServerPublisher(xs), ServerPublisher(ys)) => ServerPublisher(Without(xs, ys))
      case (Client(xs), Client(ys)) => Client(Without(xs, ys))
      case _ => this
    }
  }

  /** `xs.retain(|x| !ys.contains(x))` */
  function Without<T(==)>(xs: seq<T>, ys: seq<T>): seq<T> {
    if xs == [] then []
    else
      var rest := Without(xs[..|xs| - 1], ys);
      if xs[|xs| - 1] in ys then rest else rest + [xs[|xs| - 1]]
  }

  lemma {:induction false} WithoutContents<T>(xs: seq<T>, ys: seq<T>)
    ensures forall x :: x in Without(xs, ys) <==> x in xs && x !in ys
  {
    if xs != [] {
      var front, last := xs[..|xs| - 1], xs[|xs| - 1];
      WithoutContents(front, ys);
      assert xs == front + [last];
    }
  }

  ghost predicate Rising(at: seq<nat>, n: nat) {
    (forall j | 0 <= j < |at| :: at[j] < n) && forall j, k | 0 <= j < k < |at| :: at[j] < at[k]
  }

  /** What is left are the elements at just the positions that hold none of `ys`, in order. */
  lemma {:induction false} WithoutKeeps<T>(xs: seq<T>, ys: seq<T>) returns (at: seq<nat>)
    ensures Rising(at, |xs|) && |at| == |Without(xs, ys)|
    ensures forall j | 0 <= j < |at| :: Without(xs, ys)[j] == xs[at[j]]
    ensures forall k | 0 <= k < |xs| :: k in at <==> xs[k] !in ys
  {
    at := [];
    if xs != [] {
      var front, last := xs[..|xs| - 1], xs[|xs| - 1];
      at := WithoutKeeps(front, ys);
      assert forall k | 0 <= k < |front| :: xs[k] == front[k];
      if last !in ys {
        at := at + [|front|];
      }
    }
  }

  lemma {:induction false} WithoutNothing<T>(xs: seq<T>, ys: seq<T>)
    requires forall x | x in xs :: x !in ys
    ensures Without(xs, ys) == xs
  {
    if xs != [] {
      WithoutNothing(xs[..|xs| - 1], ys);
      assert xs == xs[..|xs| - 1] + [xs[|xs| - 1]];
    }
  }

  /** A merge of entries not already present is undone by reducing with the same entries. */
  lemma {:induction false} MergeReduce<T>(xs: seq<T>, y: T)
    requires y !in xs
    ensures Without(xs + [y], [y]) == xs
  {
    assert (xs + [y])[..|xs|] == xs;
    WithoutNothing(xs, [y]);
  }
}
