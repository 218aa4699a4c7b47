/** The answer matcher: the dictionary from answer caption to button name that
    the adapter fills from the page, and the fuzzy library's choice of the
    best-scoring caption. */
module Matching {
  import opened Host

  /** A dictionary from caption to button name that remembers the order in
      which labels were first inserted, as a Python dict does. */
  datatype Choices = Choices(labels: seq<string>, names: map<string, string>)

  const NoChoices: Choices := Choices([], map[])

  /** The ordered labels are exactly the keys of the dictionary. */
  ghost predicate Consistent(c: Choices)
  {
    forall l :: l in c.labels <==> l in c.names
  }

  /** No caption is listed twice. */
  ghost predicate Distinct(labels: seq<string>)
  {
    forall i, j :: 0 <= i < j < |labels| ==> labels[i] != labels[j]
  }

  /** `dict[caption] = name`: a new caption goes to the end, an existing one
      keeps its place and takes the new name. */
  function Put(c: Choices, name: string, caption: string): (r: Choices)
    ensures Consistent(c) ==> Consistent(r)
    ensures Consistent(c) && Distinct(c.labels) ==> Distinct(r.labels)
    ensures caption in r.names && r.names[caption] == name
    ensures forall l :: l != caption && l in c.names ==> l in r.names && r.names[l] == c.names[l]
    ensures r.names.Keys == c.names.Keys + {caption}
    ensures caption in c.names ==> r.labels == c.labels
    ensures caption !in c.names ==> r.labels == c.labels + [caption]
  {
    if caption in c.names then Choices(c.labels, c.names[caption := name])
    else Choices(c.labels + [caption], c.names[caption := name])
  }

  /** Every (name, caption) pair of a search inserted in order. */
  function PutAll(c: Choices, pairs: seq<(string, string)>): (r: Choices)
    ensures Consistent(c) ==> Consistent(r)
    decreases |pairs|
  {
    if pairs == [] then c
    else
      var last := pairs[|pairs| - 1];
      Put(PutAll(c, pairs[..|pairs| - 1]), last.0, last.1)
  }

  /** After inserting a list of pairs into an empty dictionary, its keys
      are the labels of the pairs, each listed once. */
  lemma {:induction false} PutAllKeys(pairs: seq<(string, string)>)
    ensures Consistent(PutAll(NoChoices, pairs)) && Distinct(PutAll(NoChoices, pairs).labels)
    ensures forall l :: l in PutAll(NoChoices, pairs).names <==> exists i :: 0 <= i < |pairs| && pairs[i].1 == l
    decreases |pairs|
  {
    if pairs != [] {
      var init := pairs[..|pairs| - 1];
      var last := pairs[|pairs| - 1];
      PutAllKeys(init);
      var c := PutAll(NoChoices, init);
      var r := PutAll(NoChoices, pairs);
      assert r == Put(c, last.0, last.1);
      forall l ensures l in r.names <==> exists i :: 0 <= i < |pairs| && pairs[i].1 == l {
        if l in c.names && l != last.1 {
          var i :| 0 <= i < |init| && init[i].1 == l;
          assert pairs[i].1 == l;
        }
        if l != last.1 && exists i :: 0 <= i < |pairs| && pairs[i].1 == l {
          var i :| 0 <= i < |pairs| && pairs[i].1 == l;
          assert init[i].1 == l;
        }
      }
    }
  }

  /** The name stored for a caption is the one of the LAST pair carrying
      that caption. */
  lemma {:induction false} PutAllLastWins(c: Choices, pairs: seq<(string, string)>)
    ensures forall i :: 0 <= i < |pairs| && (forall j :: i < j < |pairs| ==> pairs[j].1 != pairs[i].1) ==>
              pairs[i].1 in PutAll(c, pairs).names && PutAll(c, pairs).names[pairs[i].1] == pairs[i].0
    decreases |pairs|
  {
    if pairs != [] {
      var init := pairs[..|pairs| - 1];
      PutAllLastWins(c, init);
      forall i | 0 <= i < |pairs| - 1 && (forall j :: i < j < |pairs| ==> pairs[j].1 != pairs[i].1)
        ensures pairs[i].1 in PutAll(c, pairs).names && PutAll(c, pairs).names[pairs[i].1] == pairs[i].0
      {
        assert init[i] == pairs[i];
        forall j | i < j < |init| ensures init[j].1 != init[i].1 {
          assert init[j] == pairs[j];
        }
      }
    }
  }

  /** The index of the first pair carrying caption l, or the number of
      pairs when none does. */
  function FirstAt(pairs: seq<(string, string)>, l: string): (k: nat)
    ensures k <= |pairs| && (k < |pairs| ==> pairs[k].1 == l)
    decreases |pairs|
  {
    if pairs == [] then 0
    else if pairs[0].1 == l then 0
    else 1 + FirstAt(pairs[1..], l)
  }

  /** No pair before the index FirstAt finds carries the caption. */
  lemma {:induction false} FirstAtLeast(pairs: seq<(string, string)>, l: string, m: nat)
    requires m < |pairs| && pairs[m].1 == l
    ensures FirstAt(pairs, l) <= m
    decreases |pairs|
  {
    if pairs[0].1 != l {
      assert pairs[1..][m - 1] == pairs[m];
      FirstAtLeast(pairs[1..], l, m - 1);
    }
  }

  /** A caption already carried by a prefix is first found inside it. */
  lemma FirstAtPrefix(pairs: seq<(string, string)>, n: nat, l: string)
    requires n <= |pairs| && FirstAt(pairs[..n], l) < n
    ensures FirstAt(pairs, l) == FirstAt(pairs[..n], l)
  {
    var k := FirstAt(pairs[..n], l);
    assert pairs[k] == pairs[..n][k];
    FirstAtLeast(pairs, l, k);
    var f := FirstAt(pairs, l);
    assert pairs[..n][f] == pairs[f];
    FirstAtLeast(pairs[..n], l, f);
  }

  /** Every caption inserted is a key afterwards. */
  lemma {:induction false} PutAllHolds(c: Choices, pairs: seq<(string, string)>)
    ensures forall k :: 0 <= k < |pairs| ==> pairs[k].1 in PutAll(c, pairs).names
    decreases |pairs|
  {
    if pairs != [] {
      var init := pairs[..|pairs| - 1];
      PutAllHolds(c, init);
      forall k | 0 <= k < |init| ensures pairs[k].1 in PutAll(c, init).names {
        assert pairs[k] == init[k];
      }
    }
  }

  /** Every label is carried by some pair, and the labels are listed in the
      order in which they first occur among the pairs. */
  ghost predicate InFirstOrder(pairs: seq<(string, string)>, labels: seq<string>)
  {
    (forall i :: 0 <= i < |labels| ==> FirstAt(pairs, labels[i]) < |pairs|)
    && forall i, j :: 0 <= i < j < |labels| ==> FirstAt(pairs, labels[i]) < FirstAt(pairs, labels[j])
  }

  /** A caption carried by pair j and by no earlier pair is first found at j. */
  lemma {:induction false} FirstAtExact(pairs: seq<(string, string)>, l: string, j: nat)
    requires j < |pairs| && pairs[j].1 == l
    requires forall m :: 0 <= m < j ==> pairs[m].1 != l
    ensures FirstAt(pairs, l) == j
    decreases j
  {
    if j > 0 {
      assert pairs[0].1 != l;
      forall m | 0 <= m < j - 1 ensures pairs[1..][m].1 != l {
        assert pairs[1..][m] == pairs[m + 1];
      }
      assert pairs[1..][j - 1] == pairs[j];
      FirstAtExact(pairs[1..], l, j - 1);
    }
  }

  /** Labels in first-occurrence order for all pairs but the last stay so,
      each still first found before the last pair, once that pair is added. */
  lemma OrderExtends(pairs: seq<(string, string)>, labels: seq<string>)
    requires pairs != [] && InFirstOrder(pairs[..|pairs| - 1], labels)
    ensures InFirstOrder(pairs, labels)
    ensures forall i :: 0 <= i < |labels| ==> FirstAt(pairs, labels[i]) < |pairs| - 1
  {
    forall i | 0 <= i < |labels|
      ensures FirstAt(pairs, labels[i]) == FirstAt(pairs[..|pairs| - 1], labels[i])
    {
      FirstAtPrefix(pairs, |pairs| - 1, labels[i]);
    }
  }

  /** A caption first found after every label may follow them. */
  lemma OrderAppendNew(pairs: seq<(string, string)>, labels: seq<string>, l: string)
    requires InFirstOrder(pairs, labels) && FirstAt(pairs, l) < |pairs|
    requires forall i :: 0 <= i < |labels| ==> FirstAt(pairs, labels[i]) < FirstAt(pairs, l)
    ensures InFirstOrder(pairs, labels + [l])
  {
    var r := labels + [l];
    forall i | 0 <= i < |r| ensures FirstAt(pairs, r[i]) < |pairs| {
      if i < |labels| { assert r[i] == labels[i]; }
    }
    forall i, j | 0 <= i < j < |r| ensures FirstAt(pairs, r[i]) < FirstAt(pairs, r[j]) {
      assert r[i] == labels[i];
      if j < |labels| { assert r[j] == labels[j]; }
    }
  }

  /** Inserting the last pair keeps the labels in first-occurrence order:
      old labels keep their first index, and a new caption is first found at
      that pair. */
  lemma FirstOrderStep(pairs: seq<(string, string)>, c: Choices)
    requires pairs != [] && Consistent(c) && InFirstOrder(pairs[..|pairs| - 1], c.labels)
    requires forall k :: 0 <= k < |pairs| - 1 ==> pairs[k].1 in c.names
    ensures InFirstOrder(pairs, Put(c, pairs[|pairs| - 1].0, pairs[|pairs| - 1].1).labels)
  {
    var n := |pairs| - 1;
    var last := pairs[n];
    OrderExtends(pairs, c.labels);
    if last.1 !in c.names {
      FirstAtExact(pairs, last.1, n);
      OrderAppendNew(pairs, c.labels, last.1);
    }
  }

  /** Starting from an empty dictionary, the labels list the captions in the
      order in which each first occurs among the pairs, as a Python dict
      iterates its keys. */
  lemma {:induction false} PutAllFirstOrder(pairs: seq<(string, string)>)
    ensures InFirstOrder(pairs, PutAll(NoChoices, pairs).labels)
    decreases |pairs|
  {
    if pairs != [] {
      var init := pairs[..|pairs| - 1];
      PutAllFirstOrder(init);
      PutAllHolds(NoChoices, init);
      FirstOrderStep(pairs, PutAll(NoChoices, init));
    }
  }

  /** A non-empty insertion leaves a non-empty dictionary. */
  lemma PutAllNonEmpty(c: Choices, pairs: seq<(string, string)>)
    requires Consistent(c) && pairs != []
    ensures |PutAll(c, pairs).labels| > 0
  {
    var r := PutAll(c, pairs);
    assert pairs[|pairs| - 1].1 in r.names;
  }

  /** The index of the choice the fuzzy library returns for a query: the
      highest score, and among equal highest scores the earliest choice. */
  function ExtractOne(ratio: (string, string) -> Score, query: string, choices: seq<string>): (i: nat)
    requires |choices| > 0
    ensures i < |choices|
    ensures forall j :: 0 <= j < |choices| ==> ratio(query, choices[j]) <= ratio(query, choices[i])
    ensures forall j :: 0 <= j < i ==> ratio(query, choices[j]) < ratio(query, choices[i])
    decreases |choices|
  {
    if |choices| == 1 then 0
    else
      var k := ExtractOne(ratio, query, choices[..|choices| - 1]);
      assert forall j :: 0 <= j < |choices| - 1 ==> choices[..|choices| - 1][j] == choices[j];
      if ratio(query, choices[|choices| - 1]) > ratio(query, choices[k]) then |choices| - 1 else k
  }
}
