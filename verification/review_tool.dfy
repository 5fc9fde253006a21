/** The post-review clean-up of scraped listings: merging the scrape files
    without duplicate pids, dropping listings without a post, and the
    price-per-room table of fully described listings. */
module ReviewTool {
  import opened Wrappers
  import opened Sequences
  import opened Listings

  /** A pandas data frame of listings: its index labels and its rows. */
  datatype Frame = Frame(index: seq<int>, rows: seq<Listing>)

  /** The index `range(len(df))`: row k is labelled k. */
  predicate Renumbered(df: Frame) {
    |df.index| == |df.rows| && forall k :: 0 <= k < |df.index| ==> df.index[k] == k
  }

  /** A fresh `range(n)` index. */
  function RangeIndex(n: nat): (r: seq<int>)
    ensures |r| == n && forall k :: 0 <= k < n ==> r[k] == k
  {
    seq(n, k => k)
  }

  /** All files' listings, one file after the other. */
  function Concat(files: seq<seq<Listing>>): seq<Listing> {
    if files == [] then [] else Concat(files[..|files| - 1]) + files[|files| - 1]
  }

  /** Row i holds the first occurrence of its pid. */
  predicate IsFirst(rows: seq<Listing>, i: nat)
    requires i < |rows|
  {
    forall j :: 0 <= j < i ==> rows[j].pid != rows[i].pid
  }

  /** The positions `drop_duplicates(cols='pid')` keeps: exactly the first
      occurrence of every pid, in increasing order. */
  function KeptPositions(rows: seq<Listing>): (idx: seq<nat>)
    ensures forall k :: 0 <= k < |idx| ==> idx[k] < |rows|
    ensures forall a, b :: 0 <= a < b < |idx| ==> idx[a] < idx[b]
    ensures forall i :: 0 <= i < |rows| ==> (i in idx <==> IsFirst(rows, i))
    decreases |rows|
  {
    if rows == [] then []
    else
      var n := |rows| - 1;
      var init := KeptPositions(rows[..n]);
      assert forall i :: 0 <= i < n ==> (IsFirst(rows[..n], i) <==> IsFirst(rows, i));
      if IsFirst(rows, n) then init + [n] else init
  }

  /** `drop_duplicates(cols='pid')` on a data frame: the kept rows with their old labels. */
  function DropDuplicates(df: Frame): (r: Frame)
    requires |df.index| == |df.rows|
    ensures |r.index| == |r.rows|
  {
    var kept := KeptPositions(df.rows);
    Frame(Gather(df.index, kept), Gather(df.rows, kept))
  }

  /** No two rows share a pid. */
  predicate UniquePids(rows: seq<Listing>) {
    forall a, b :: 0 <= a < b < |rows| ==> rows[a].pid != rows[b].pid
  }

  /** After dropping duplicates no two rows share a pid, every input pid is still
      present, and each kept row is the first row with its pid, in input order. */
  lemma DropDuplicatesSpec(rows: seq<Listing>)
    ensures var kept := KeptPositions(rows); var out := Gather(rows, kept);
      && UniquePids(out)
      && (forall i :: 0 <= i < |rows| ==> exists k :: 0 <= k < |out| && out[k].pid == rows[i].pid)
      && (forall k :: 0 <= k < |out| ==> out[k] == rows[kept[k]] && IsFirst(rows, kept[k]))
      && (forall a, b :: 0 <= a < b < |out| ==> kept[a] < kept[b])
  {
    var kept := KeptPositions(rows);
    var out := Gather(rows, kept);
    forall a, b | 0 <= a < b < |out| ensures out[a].pid != out[b].pid {
      assert kept[b] in kept;
    }
    forall i | 0 <= i < |rows| ensures exists k :: 0 <= k < |out| && out[k].pid == rows[i].pid {
      var f := FirstWithPid(rows, i);
      assert f in kept;
      var k :| 0 <= k < |kept| && kept[k] == f;
      assert out[k].pid == rows[i].pid;
    }
    forall k | 0 <= k < |out| ensures IsFirst(rows, kept[k]) {
      assert kept[k] in kept;
    }
  }

  /** The first row carrying the pid of row i. */
  function FirstWithPid(rows: seq<Listing>, i: nat): (f: nat)
    requires i < |rows|
    ensures f <= i && rows[f].pid == rows[i].pid && IsFirst(rows, f)
    decreases i
  {
    if IsFirst(rows, i) then i
    else
      var j :| 0 <= j < i && rows[j].pid == rows[i].pid;
      FirstWithPid(rows, j)
  }

  /** `remove_duplicates`: concatenate the scrape files into one frame,
      renumber it, drop repeated pids keeping the first, and renumber again. */
  method RemoveDuplicates(files: seq<seq<Listing>>) returns (df: Frame)
    ensures df.rows == Gather(Concat(files), KeptPositions(Concat(files)))
    ensures Renumbered(df)
  {
    df := Frame([], []);
    for i := 0 to |files|
      invariant df.rows == Concat(files[..i])
      invariant |df.index| == |df.rows|
    {
      var buffer := Frame(RangeIndex(|files[i]|), files[i]);
      df := Frame(df.index + buffer.index, df.rows + buffer.rows);
      assert files[..i + 1][..i] == files[..i];
    }
    assert files[..|files|] == files;
    df := Frame(RangeIndex(|df.rows|), df.rows);
    df := DropDuplicates(df);
    df := Frame(RangeIndex(|df.rows|), df.rows);
  }

  function WithPost(l: Listing): bool {
    l.hasPost == 1
  }

  /** `remove_noPosts`: the rows whose `hasPost` is 1, in their order, renumbered. */
  function RemoveNoPosts(df: Frame): (r: Frame)
    ensures Renumbered(r)
    ensures forall l :: l in r.rows ==> l in df.rows && l.hasPost == 1
    ensures |r.rows| == CountIf(df.rows, WithPost)
    ensures var at := FilterPositions(df.rows, WithPost);
            && |at| == |r.rows|
            && (forall j :: 0 <= j < |at| ==> at[j] < |df.rows| && r.rows[j] == df.rows[at[j]])
            && (forall i, j :: 0 <= i < j < |at| ==> at[i] < at[j])
  {
    var kept := Filter(df.rows, WithPost);
    forall l | l in kept ensures l in df.rows && l.hasPost == 1 {
      FilterMembers(df.rows, WithPost, l);
    }
    Frame(RangeIndex(|kept|), kept)
  }

  /** Every row with a post survives `remove_noPosts`. */
  lemma RemoveNoPostsKeepsPosts(df: Frame, l: Listing)
    requires l in df.rows && l.hasPost == 1
    ensures l in RemoveNoPosts(df).rows
  {
    FilterMembers(df.rows, WithPost, l);
  }

  /** `get_nprice_and_coordMat`: for the listings with price, both coordinates
      and bedrooms present, the price per room and the `[lon, lat]` pair,
      both in row order. */
  function NPriceAndCoordMat(df: Frame): (r: (seq<Option<real>>, seq<(real, real)>))
    ensures |r.0| == |r.1| == CountIf(df.rows, HasPriceAndLocation)
  {
    var kept := Filter(df.rows, HasPriceAndLocation);
    (seq(|kept|, i requires 0 <= i < |kept| => NPrice(kept[i].price, kept[i].nbr)),
     seq(|kept|, i requires 0 <= i < |kept| => (kept[i].lon, kept[i].lat)))
  }

  /** Row i of both outputs comes from the i-th fully described listing, in
      input order: its coordinates, and its price divided by its bedroom
      count. A listing is kept exactly when all four fields are present. */
  lemma NPriceAndCoordMatRows(df: Frame)
    ensures var kept := Filter(df.rows, HasPriceAndLocation); var r := NPriceAndCoordMat(df);
      && (forall l :: l in kept <==> l in df.rows && HasPriceAndLocation(l))
      && |kept| == |r.1|
      && (forall i :: 0 <= i < |kept| ==>
            r.1[i] == (kept[i].lon, kept[i].lat) && r.0[i] == NPrice(kept[i].price, kept[i].nbr))
  {
    var kept := Filter(df.rows, HasPriceAndLocation);
    forall l ensures l in kept <==> l in df.rows && HasPriceAndLocation(l) {
      FilterMembers(df.rows, HasPriceAndLocation, l);
    }
  }
}
