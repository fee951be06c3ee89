/**
 * Item-mean normalisation of collaborative-filtering ratings: the mean rating
 * of every item is removed from that item's ratings, and added back to
 * predicted ratings afterwards.
 */
module CfNormalization {

  /** One column of the coordinate list: user id, item id and rating. */
  datatype Rating = Rating(user: nat, item: nat, rating: real)

  /** One column of a user/item combination matrix. */
  datatype Combination = Combination(user: nat, item: nat)

  /** The largest item id of a non-empty coordinate list. */
  function MaxItem(s: seq<Rating>): (m: nat)
    requires |s| > 0
    ensures forall j :: 0 <= j < |s| ==> s[j].item <= m
    ensures exists j :: 0 <= j < |s| && s[j].item == m
  {
    if |s| == 1 then s[0].item
    else
      var m := MaxItem(s[..|s| - 1]);
      if s[|s| - 1].item > m then s[|s| - 1].item else m
  }

  /** The sum of the ratings given to `item`. */
  function RatingSum(s: seq<Rating>, item: nat): real {
    if s == [] then 0.0
    else RatingSum(s[..|s| - 1], item) + (if s[|s| - 1].item == item then s[|s| - 1].rating else 0.0)
  }

  /** The number of ratings given to `item`. */
  function RatingCount(s: seq<Rating>, item: nat): nat {
    if s == [] then 0
    else RatingCount(s[..|s| - 1], item) + (if s[|s| - 1].item == item then 1 else 0)
  }

  /** The mean rating of `item`, or 0 for an item nobody rated. */
  function Mean(s: seq<Rating>, item: nat): real {
    var n := RatingCount(s, item);
    if n == 0 then 0.0 else RatingSum(s, item) / (n as real)
  }

  /**
   * The item means of a non-empty coordinate list: one per item id from 0 to
   * the largest id, so every rated item has one.
   */
  function ItemMeans(s: seq<Rating>): (r: seq<real>)
    requires |s| > 0
    ensures |r| == MaxItem(s) + 1
    ensures forall j :: 0 <= j < |s| ==> s[j].item < |r|
  {
    seq(MaxItem(s) + 1, i requires 0 <= i => Mean(s, i))
  }

  /** An item nobody rated has rating sum 0. */
  lemma {:induction false} UnratedSum(s: seq<Rating>, item: nat)
    requires RatingCount(s, item) == 0
    ensures RatingSum(s, item) == 0.0
  {
    if s != [] {
      UnratedSum(s[..|s| - 1], item);
    }
  }

  /**
   * A rated item's mean is its rating sum divided by its rating count; an
   * unrated item's mean is 0.
   */
  lemma ItemMeanOfItem(s: seq<Rating>, item: nat)
    requires |s| > 0 && item <= MaxItem(s)
    ensures RatingCount(s, item) > 0 ==>
      ItemMeans(s)[item] == RatingSum(s, item) / (RatingCount(s, item) as real)
    ensures RatingCount(s, item) == 0 ==> ItemMeans(s)[item] == 0.0
  {
    assert ItemMeans(s)[item] == Mean(s, item);
  }

  /** A rated item's mean times its rating count is its rating sum. */
  lemma MeanTimesCount(s: seq<Rating>, item: nat)
    requires RatingCount(s, item) > 0
    ensures (RatingCount(s, item) as real) * Mean(s, item) == RatingSum(s, item)
  {
    DivisionUndone(RatingSum(s, item), RatingCount(s, item) as real);
  }

  /** Dividing by a non-zero count and multiplying back gives the total. */
  lemma DivisionUndone(total: real, n: real)
    requires n != 0.0
    ensures n * (total / n) == total
  {
  }

  /**
   * Every rating with its item's mean removed.
   */
  function Centered(s: seq<Rating>, means: seq<real>): (r: seq<Rating>)
    requires forall j :: 0 <= j < |s| ==> s[j].item < |means|
    ensures |r| == |s|
  {
    seq(|s|, j requires 0 <= j < |s| => s[j].(rating := s[j].rating - means[s[j].item]))
  }

  /**
   * Centring keeps every user and item, and adding an item's mean back to a
   * centred rating gives the original rating.
   */
  lemma CenteredKeepsEntries(s: seq<Rating>, means: seq<real>)
    requires forall j :: 0 <= j < |s| ==> s[j].item < |means|
    ensures forall j :: 0 <= j < |s| ==>
      Centered(s, means)[j].user == s[j].user && Centered(s, means)[j].item == s[j].item
      && Centered(s, means)[j].rating + means[s[j].item] == s[j].rating
  {
  }

  /** The total taken from the ratings of `item` when `m` is taken from each of them. */
  function RemovedTotal(s: seq<Rating>, item: nat, m: real): real {
    if s == [] then 0.0
    else RemovedTotal(s[..|s| - 1], item, m) + (if s[|s| - 1].item == item then m else 0.0)
  }

  /** Taking `m` from every rating of `item` takes it once per rating. */
  lemma {:induction false} RemovedTotalIsProduct(s: seq<Rating>, item: nat, m: real)
    ensures RemovedTotal(s, item, m) == (RatingCount(s, item) as real) * m
  {
    if s != [] {
      RemovedTotalIsProduct(s[..|s| - 1], item, m);
    }
  }

  /** Taking its mean from each rating of a rated item takes its whole rating sum. */
  lemma MeanRemovesSum(s: seq<Rating>, item: nat)
    requires RatingCount(s, item) > 0
    ensures RemovedTotal(s, item, Mean(s, item)) == RatingSum(s, item)
  {
    RemovedTotalIsProduct(s, item, Mean(s, item));
    MeanTimesCount(s, item);
  }

  /** Centring removes from an item's rating sum its mean once per rating. */
  lemma {:induction false} CenteredSum(s: seq<Rating>, means: seq<real>, item: nat)
    requires forall j :: 0 <= j < |s| ==> s[j].item < |means|
    requires item < |means|
    ensures RatingSum(Centered(s, means), item) == RatingSum(s, item) - RemovedTotal(s, item, means[item])
  {
    if s != [] {
      var init := s[..|s| - 1];
      assert Centered(s, means)[..|s| - 1] == Centered(init, means);
      CenteredSum(init, means, item);
    }
  }

  /**
   * Removing from every rating of a rated item that item's mean leaves
   * ratings summing to zero, whatever is removed from other items.
   */
  lemma CenteredSumZero(s: seq<Rating>, means: seq<real>, item: nat)
    requires forall j :: 0 <= j < |s| ==> s[j].item < |means|
    requires item < |means| && RatingCount(s, item) > 0
    requires means[item] == Mean(s, item)
    ensures RatingSum(Centered(s, means), item) == 0.0
  {
    MeanRemovesSum(s, item);
    CenteredSum(s, means, item);
  }

  /** After normalisation the ratings of every rated item sum to zero. */
  lemma CenteredSumsToZero(s: seq<Rating>, item: nat)
    requires |s| > 0 && item <= MaxItem(s) && RatingCount(s, item) > 0
    ensures RatingSum(Centered(s, ItemMeans(s)), item) == 0.0
  {
    CenteredSumZero(s, ItemMeans(s), item);
  }

  /** A prefix one longer adds the last entry's contribution. */
  lemma SumAndCountStep(s: seq<Rating>, j: nat, item: nat)
    requires j < |s|
    ensures RatingSum(s[..j + 1], item)
         == RatingSum(s[..j], item) + (if s[j].item == item then s[j].rating else 0.0)
    ensures RatingCount(s[..j + 1], item)
         == RatingCount(s[..j], item) + (if s[j].item == item then 1 else 0)
  {
    assert s[..j + 1][..j] == s[..j];
  }

  /** The sum of row `i` of `m` over its first `n` columns, stored or not. */
  function RowSum(m: array2<real>, i: nat, n: nat): real
    reads m
    requires i < m.Length0 && n <= m.Length1
  {
    if n == 0 then 0.0 else RowSum(m, i, n - 1) + m[i, n - 1]
  }

  /** The mean of every row of `m` over all its columns, implicit zeros included. */
  function RowMeans(m: array2<real>): (r: seq<real>)
    reads m
    requires m.Length1 > 0
    ensures |r| == m.Length0
    ensures forall i :: 0 <= i < |r| ==> r[i] * (m.Length1 as real) == RowSum(m, i, m.Length1)
  {
    seq(m.Length0, i requires 0 <= i < m.Length0 reads m => RowSum(m, i, m.Length1) / (m.Length1 as real))
  }

  /**
   * The per-item rating sums and rating counts of `data`, for the item ids
   * below `itemNum`, accumulated in one pass.
   */
  method AccumulateRatings(data: array<Rating>, itemNum: nat) returns (sums: array<real>, counts: array<nat>)
    requires forall j :: 0 <= j < data.Length ==> data[j].item < itemNum
    ensures fresh(sums) && fresh(counts)
    ensures sums.Length == itemNum && counts.Length == itemNum
    ensures forall i :: 0 <= i < itemNum ==>
      sums[i] == RatingSum(data[..], i) && counts[i] == RatingCount(data[..], i)
  {
    sums := new real[itemNum](_ => 0.0);
    counts := new nat[itemNum](_ => 0);
    ghost var s := data[..];
    var j := 0;
    while j < data.Length
      invariant 0 <= j <= data.Length
      invariant forall i :: 0 <= i < itemNum ==>
        sums[i] == RatingSum(s[..j], i) && counts[i] == RatingCount(s[..j], i)
    {
      var item := data[j].item;
      forall i | 0 <= i < itemNum {
        SumAndCountStep(s, j, i);
      }
      sums[item] := sums[item] + data[j].rating;
      counts[item] := counts[item] + 1;
      j := j + 1;
    }
    assert s[..data.Length] == s;
  }

  /** Turns per-item rating sums into per-item means; unrated items keep 0. */
  method DivideByCounts(sums: array<real>, counts: array<nat>, ghost s: seq<Rating>)
    requires sums.Length == counts.Length
    requires forall i :: 0 <= i < sums.Length ==>
      sums[i] == RatingSum(s, i) && counts[i] == RatingCount(s, i)
    modifies sums
    ensures forall i :: 0 <= i < sums.Length ==> sums[i] == Mean(s, i)
  {
    var i := 0;
    while i < sums.Length
      invariant 0 <= i <= sums.Length
      invariant forall k :: 0 <= k < i ==> sums[k] == Mean(s, k)
      invariant forall k :: i <= k < sums.Length ==> sums[k] == RatingSum(s, k)
    {
      if counts[i] != 0 {
        sums[i] := sums[i] / (counts[i] as real);
      } else {
        UnratedSum(s, i);
      }
      i := i + 1;
    }
  }

  /** Removes from every rating the mean of its item. */
  method SubtractMeans(data: array<Rating>, means: seq<real>)
    requires forall j :: 0 <= j < data.Length ==> data[j].item < |means|
    modifies data
    ensures data[..] == Centered(old(data[..]), means)
  {
    ghost var s := data[..];
    var j := 0;
    while j < data.Length
      invariant 0 <= j <= data.Length
      invariant forall k :: 0 <= k < j ==> data[k] == s[k].(rating := s[k].rating - means[s[k].item])
      invariant forall k :: j <= k < data.Length ==> data[k] == s[k]
    {
      data[j] := data[j].(rating := data[j].rating - means[data[j].item]);
      j := j + 1;
    }
  }

  class ItemMeanNormalization {
    /** The mean rating of every item, computed by the last normalisation. */
    var itemMean: seq<real>

    constructor ()
      ensures itemMean == []
    {
      itemMean := [];
    }

    /**
     * Dense normalisation of a coordinate list. Taking the largest item id of an
     * empty list is an error (ok is false) and changes nothing; otherwise the
     * item means are stored and every rating has its item's mean removed.
     */
    method Normalize(data: array<Rating>) returns (ok: bool)
      modifies this, data
      ensures ok <==> data.Length > 0
      ensures !ok ==> itemMean == old(itemMean) && data[..] == old(data[..])
      ensures ok ==> itemMean == ItemMeans(old(data[..]))
      ensures ok ==> data[..] == Centered(old(data[..]), itemMean)
    {
      if data.Length == 0 {
        return false;
      }
      ok := true;
      var itemNum := MaxItem(data[..]) + 1;
      var means, ratingNum := AccumulateRatings(data, itemNum);
      DivideByCounts(means, ratingNum, data[..]);
      itemMean := means[..];
      assert itemMean == ItemMeans(old(data[..]));
      SubtractMeans(data, itemMean);
    }

    /**
     * Sparse normalisation of an item-by-user matrix whose stored entries are
     * `stored`. Each item mean is the row mean over all columns, implicit zeros
     * included; only stored entries are shifted, so unstored ones stay zero.
     */
    method NormalizeSparse(cleanedData: array2<real>, stored: set<(nat, nat)>)
      requires cleanedData.Length1 > 0
      requires forall p :: p in stored ==> p.0 < cleanedData.Length0 && p.1 < cleanedData.Length1
      requires forall i: nat, j: nat ::
        (i < cleanedData.Length0 && j < cleanedData.Length1 && (i, j) !in stored) ==> cleanedData[i, j] == 0.0
      modifies this, cleanedData
      ensures itemMean == old(RowMeans(cleanedData))
      ensures forall i: nat, j: nat :: i < cleanedData.Length0 && j < cleanedData.Length1 ==>
        cleanedData[i, j] == if (i, j) in stored then old(cleanedData[i, j]) - itemMean[i] else 0.0
    {
      itemMean := RowMeans(cleanedData);
      var todo := stored;
      while todo != {}
        invariant todo <= stored
        invariant itemMean == old(RowMeans(cleanedData))
        invariant forall i: nat, j: nat :: i < cleanedData.Length0 && j < cleanedData.Length1 ==>
          cleanedData[i, j] ==
            if (i, j) in stored - todo then old(cleanedData[i, j]) - itemMean[i] else old(cleanedData[i, j])
        decreases todo
      {
        var p :| p in todo;
        cleanedData[p.0, p.1] := cleanedData[p.0, p.1] - itemMean[p.0];
        todo := todo - {p};
      }
    }

    /** A predicted rating with the item's mean added back; the user is ignored. */
    function Denormalize(user: nat, item: nat, rating: real): real
      reads this
      requires item < |itemMean|
    {
      rating + itemMean[item]
    }

    /**
     * Batch denormalisation: every prediction gets the mean of its combination's
     * item added, exactly as the scalar `Denormalize` would.
     */
    method DenormalizeBatch(combinations: seq<Combination>, predictions: array<real>)
      requires predictions.Length <= |combinations|
      requires forall i :: 0 <= i < predictions.Length ==> combinations[i].item < |itemMean|
      modifies predictions
      ensures forall i :: 0 <= i < predictions.Length ==>
        predictions[i] == Denormalize(combinations[i].user, combinations[i].item, old(predictions[i]))
      ensures forall i :: 0 <= i < predictions.Length ==>
        predictions[i] - old(predictions[i]) == itemMean[combinations[i].item]
    {
      var i := 0;
      while i < predictions.Length
        invariant 0 <= i <= predictions.Length
        invariant forall k :: 0 <= k < i ==>
          predictions[k] == old(predictions[k]) + itemMean[combinations[k].item]
        invariant forall k :: i <= k < predictions.Length ==> predictions[k] == old(predictions[k])
      {
        var item := combinations[i].item;
        predictions[i] := predictions[i] + itemMean[item];
        i := i + 1;
      }
    }

    /** The stored item means. */
    function ItemMean(): (r: seq<real>)
      reads this
      ensures r == itemMean
    {
      itemMean
    }
  }

  /**
   * Round trip: denormalising a normalised rating with the means the
   * normalisation stored gives back the original rating, whatever user is named.
   */
  lemma DenormalizeRoundTrip(n: ItemMeanNormalization, s: seq<Rating>, user: nat)
    requires |s| > 0 && n.itemMean == ItemMeans(s)
    ensures forall j :: 0 <= j < |s| ==>
      n.Denormalize(user, s[j].item, Centered(s, n.itemMean)[j].rating) == s[j].rating
  {
  }

  /**
   * After a normalisation of `s`, the reported item means hold one entry per
   * item id up to the largest; a rated item's entry is its rating sum divided
   * by its rating count, and an unrated item's entry is 0.
   */
  lemma ItemMeanReported(n: ItemMeanNormalization, s: seq<Rating>)
    requires |s| > 0 && n.itemMean == ItemMeans(s)
    ensures |n.ItemMean()| == MaxItem(s) + 1
    ensures forall item :: 0 <= item < |n.ItemMean()| ==>
      (RatingCount(s, item) > 0 ==> n.ItemMean()[item] == RatingSum(s, item) / (RatingCount(s, item) as real))
      && (RatingCount(s, item) == 0 ==> n.ItemMean()[item] == 0.0)
  {
    forall item | 0 <= item < |n.ItemMean()|
      ensures RatingCount(s, item) > 0 ==> n.ItemMean()[item] == RatingSum(s, item) / (RatingCount(s, item) as real)
      ensures RatingCount(s, item) == 0 ==> n.ItemMean()[item] == 0.0
    {
      ItemMeanOfItem(s, item);
    }
  }
}
