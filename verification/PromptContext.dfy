// CappedPromptContext of ask/search/prompt.py: an ordered dictionary of text blocks and the cap
// on its size.
module PromptContext {
  import opened Basics
  import opened OrderedDict

  datatype Error = KeyError | ValueError

  function Size(es: Dict): nat {
    if es == [] then 0 else Size(es[..|es| - 1]) + |es[|es| - 1].text|
  }

  // The texts one after the other.
  function AllText(es: Dict): (s: string)
    ensures |s| == Size(es)
  {
    if es == [] then "" else AllText(es[..|es| - 1]) + es[|es| - 1].text
  }

  // Trimming from the end until at most `limit` characters are left.
  function Trimmed(es: Dict, limit: int): Dict {
    if Size(es) <= limit || es == [] then es
    else
      var last := es[|es| - 1];
      if Size(es) - |last.text| >= limit then Trimmed(es[..|es| - 1], limit)
      else es[..|es| - 1] + [Entry(last.key, last.text[..|last.text| - (Size(es) - limit)])]
  }

  function Capped(es: Dict, maxSize: Option<int>): Dict {
    if maxSize.None? then es else Trimmed(es, maxSize.value)
  }

  lemma {:induction false} SizeMonotone(es: Dict, m: nat, n: nat)
    requires m <= n <= |es|
    ensures Size(es[..m]) <= Size(es[..n])
  {
    if m < n {
      assert es[..n][..n - 1] == es[..n - 1];
      SizeMonotone(es, m, n - 1);
    }
  }

  // Only the last survivor is touched, and it keeps the front of its text.
  ghost predicate PrefixCut(r: Dict, es: Dict) {
    && |r| <= |es|
    && (forall i :: 0 <= i < |r| ==> r[i].key == es[i].key)
    && (forall i :: 0 <= i < |r| - 1 ==> r[i] == es[i])
    && (r != [] ==> r[|r| - 1].text <= es[|r| - 1].text)
  }

  // A block survives if there is room left before it, or if it fits whole.
  predicate Survives(es: Dict, limit: nat, i: nat)
    requires i < |es|
  {
    Size(es[..i]) < limit || Size(es[..i + 1]) <= limit
  }

  // The cap keeps exactly the first `limit` characters of the concatenated texts, in the blocks
  // that reach them; a context within the limit is left alone.
  lemma {:induction false} CapExact(es: Dict, limit: nat)
    ensures PrefixCut(Trimmed(es, limit), es)
    ensures AllText(Trimmed(es, limit)) == if Size(es) <= limit then AllText(es) else AllText(es)[..limit]
    ensures Size(es) <= limit ==> Trimmed(es, limit) == es
    ensures forall i :: 0 <= i < |es| ==> (i < |Trimmed(es, limit)| <==> Survives(es, limit, i))
  {
    hide Survives, AllText, Trimmed, PrefixCut;
    if Size(es) <= limit {
      TrimDone(es, limit);
      CutNothing(es);
      AllSurvive(es, limit);
    } else if Size(es[..|es| - 1]) >= limit {
      var front := es[..|es| - 1];
      CapExact(front, limit);
      TrimShorter(es, limit);
      CutShorter(es, limit);
      SurvivorsShorter(es, limit);
      CutLonger(Trimmed(front, limit), es);
      hide Size;
    } else {
      CutLast(es, limit);
    }
  }

  lemma CutNothing(es: Dict)
    ensures PrefixCut(es, es)
  {
  }

  lemma CutLonger(r: Dict, es: Dict)
    requires es != [] && PrefixCut(r, es[..|es| - 1])
    ensures PrefixCut(r, es) && |r| < |es|
  {
  }

  lemma TrimShorter(es: Dict, limit: nat)
    requires Size(es) > limit && es != [] && Size(es[..|es| - 1]) >= limit
    ensures Trimmed(es, limit) == Trimmed(es[..|es| - 1], limit)
  {
  }

  lemma AllSurvive(es: Dict, limit: nat)
    requires Size(es) <= limit
    ensures forall i :: 0 <= i < |es| ==> Survives(es, limit, i)
  {
    assert es[..|es|] == es;
    forall i | 0 <= i < |es| ensures Survives(es, limit, i) {
      SizeMonotone(es, i + 1, |es|);
    }
  }

  lemma CutLast(es: Dict, limit: nat)
    requires es != [] && Size(es[..|es| - 1]) < limit < Size(es)
    ensures var r := Trimmed(es, limit);
            PrefixCut(r, es) && AllText(r) == AllText(es)[..limit] && |r| == |es|
    ensures forall i :: 0 <= i < |es| ==> Survives(es, limit, i)
  {
    var front := es[..|es| - 1];
    var r := Trimmed(es, limit);
    assert r[..|r| - 1] == front;
    forall i | 0 <= i < |es| ensures Survives(es, limit, i) {
      SizeMonotone(es, i, |es| - 1);
    }
  }

  lemma CutShorter(es: Dict, limit: nat)
    requires es != [] && Size(es[..|es| - 1]) >= limit
    ensures AllText(es)[..limit] == AllText(es[..|es| - 1])[..limit]
    ensures Size(es[..|es| - 1]) == limit ==> AllText(es)[..limit] == AllText(es[..|es| - 1])
  {
    var text, more := AllText(es[..|es| - 1]), es[|es| - 1].text;
    assert AllText(es) == text + more;
  }

  lemma SurvivorsShorter(es: Dict, limit: nat)
    requires es != [] && Size(es[..|es| - 1]) >= limit && Size(es) > limit
    ensures forall i :: 0 <= i < |es| - 1 ==> (Survives(es, limit, i) <==> Survives(es[..|es| - 1], limit, i))
    ensures !Survives(es, limit, |es| - 1)
  {
    hide Size;
    var front := es[..|es| - 1];
    assert es[..|es|] == es;
    forall i | 0 <= i < |front| ensures Survives(es, limit, i) <==> Survives(front, limit, i) {
      assert front[..i] == es[..i] && front[..i + 1] == es[..i + 1];
    }
  }

  class CappedPromptContext {
    var output: Dict
    const maxSize: Option<int>

    ghost predicate Valid()
      reads this
    {
      Distinct(output)
    }

    constructor (maxSize: Option<int>)
      ensures Valid() && output == [] && this.maxSize == maxSize
    {
      output := [];
      this.maxSize := maxSize;
    }

    predicate Contains(key: string)
      reads this
    {
      Has(output, key)
    }

    // context[key] = text
    method SetItem(key: string, text: string)
      requires Valid()
      modifies this`output
      ensures Valid() && output == Put(old(output), key, text)
    {
      PutDistinct(output, key, text);
      output := if Has(output, key) then output[At(output, key) := Entry(key, text)] else output + [Entry(key, text)];
    }

    // del context[key]
    method DeleteItem(key: string)
      requires Valid()
      modifies this`output
      ensures Valid() && output == Drop(old(output), key)
    {
      DropDistinct(output, key);
      if Has(output, key) {
        var i := At(output, key);
        output := output[..i] + output[i + 1..];
      }
    }

    // context.output.pop(key)
    method Pop(key: string) returns (r: Result<string, Error>)
      requires Valid()
      modifies this`output
      ensures Valid() && output == Drop(old(output), key)
      ensures r == if old(Has(output, key)) then Ok(Lookup(old(output), key)) else Err(KeyError)
    {
      if !Has(output, key) {
        return Err(KeyError);
      }
      r := Ok(Lookup(output, key));
      DeleteItem(key);
    }

    // Delete every block whose id starts with the field's id.
    method RemoveField(field: string)
      requires Valid()
      modifies this`output
      ensures Valid() && output == Unclaimed(old(output), [field])
    {
      ghost var before := output;
      var ids := KeysOf(output);
      assert Unclaimed(before[..0], [field]) + before[0..] == before;
      for i := 0 to |ids|
        invariant Valid() && output == Unclaimed(before[..i], [field]) + before[i..]
      {
        RemoveStep(before, i, field);
        if field <= ids[i] {
          DeleteItem(ids[i]);
        }
      }
      assert before[..|ids|] == before;
    }

    method Cap()
      requires Valid()
      modifies this`output
      ensures Valid() && output == Capped(old(output), maxSize)
    {
      if maxSize.None? {
        return;
      }
      var limit := maxSize.value;
      ghost var before := output;
      assert Distinct(before);
      var keys := KeysOf(output);
      var i := |keys|;
      assert before[..i] == before;
      hide *;
      while i > 0 && Size(output) > limit
        invariant 0 <= i <= |keys| && Valid()
        invariant Size(output) > limit ==> output == before[..i]
        invariant Trimmed(output, limit) == Trimmed(before, limit)
      {
        i := i - 1;
        TurnFacts(output, before, i, limit);
        var text := Lookup(output, keys[i]);
        var currentSize := Size(output);
        if currentSize - |text| >= limit {
          DeleteItem(keys[i]);
        } else {
          SetItem(keys[i], text[..|text| - (currentSize - limit)]);
        }
      }
      TrimDone(output, limit);
    }
  }

  lemma TrimDone(es: Dict, limit: int)
    requires es == [] || Size(es) <= limit
    ensures Trimmed(es, limit) == es
  {
  }

  // One turn of the loop: either the last block goes, or it is cut to fit and the loop is over.
  lemma TrimStep(es: Dict, limit: int)
    requires es != [] && Size(es) > limit && Distinct(es)
    ensures var last := es[|es| - 1];
            if Size(es) - |last.text| >= limit then
              && Drop(es, last.key) == es[..|es| - 1]
              && Trimmed(es, limit) == Trimmed(Drop(es, last.key), limit)
            else
              && 0 <= |last.text| - (Size(es) - limit) <= |last.text|
              && var es' := Put(es, last.key, last.text[..|last.text| - (Size(es) - limit)]);
              Size(es') == limit && Trimmed(es, limit) == Trimmed(es', limit)
  {
    var last := es[|es| - 1];
    AtUnique(es, |es| - 1);
    if Size(es) - |last.text| < limit {
      var es' := Put(es, last.key, last.text[..|last.text| - (Size(es) - limit)]);
      assert es'[..|es'| - 1] == es[..|es| - 1];
    }
  }

  lemma TurnFacts(es: Dict, before: Dict, i: nat, limit: int)
    requires Distinct(before) && i < |before| && es == before[..i + 1] && Size(es) > limit
    ensures Has(es, before[i].key) && Distinct(es)
    ensures var text := Lookup(es, before[i].key);
            if Size(es) - |text| >= limit then
              && Drop(es, before[i].key) == before[..i]
              && Trimmed(before[..i], limit) == Trimmed(es, limit)
            else
              && 0 <= |text| - (Size(es) - limit) <= |text|
              && var es' := Put(es, before[i].key, text[..|text| - (Size(es) - limit)]);
              Size(es') == limit && Trimmed(es', limit) == Trimmed(es, limit)
  {
    AtUnique(es, i);
    TrimStep(es, limit);
    hide Size, Trimmed, Put, Drop;
    assert es[..|es| - 1] == before[..i];
  }

  lemma RemoveStep(before: Dict, i: nat, field: string)
    requires i < |before| && Distinct(before)
    ensures var es := Unclaimed(before[..i], [field]) + before[i..];
            var es' := Unclaimed(before[..i + 1], [field]) + before[i + 1..];
            es' == if field <= before[i].key then Drop(es, before[i].key) else es
  {
    hide Unclaimed, Drop;
    var done, e, rest := Unclaimed(before[..i], [field]), before[i], before[i + 1..];
    UnclaimedSnoc(before, i, field);
    DoneBefore(before, i, field);
    hide Distinct;
    DropMiddle(done, e, rest);
    assert done + before[i..] == done + [e] + rest;
  }

  lemma UnclaimedSnoc(before: Dict, i: nat, field: string)
    requires i < |before|
    ensures Unclaimed(before[..i + 1], [field]) ==
      Unclaimed(before[..i], [field]) + if field <= before[i].key then [] else [before[i]]
  {
    var e := before[i];
    assert before[..i + 1] == before[..i] + [e];
    UnclaimedConcat(before[..i], [e], [field]);
    assert [e][1..] == [];
    assert field <= e.key ==> [field][0] <= e.key;
  }

  lemma DoneBefore(before: Dict, i: nat, field: string)
    requires i < |before| && Distinct(before)
    ensures forall j :: 0 <= j < |Unclaimed(before[..i], [field])| ==>
      Unclaimed(before[..i], [field])[j].key != before[i].key
  {
    UnclaimedMembers(before[..i], [field]);
    hide Unclaimed, Claimed;
    var done := Unclaimed(before[..i], [field]);
    forall j | 0 <= j < |done| ensures done[j].key != before[i].key {
      assert done[j] in before[..i];
    }
  }

  lemma DropMiddle(done: Dict, e: Entry, rest: Dict)
    requires forall j :: 0 <= j < |done| ==> done[j].key != e.key
    ensures Drop(done + [e] + rest, e.key) == done + rest
  {
    var es := done + [e] + rest;
    assert es[|done|] == e;
    assert At(es, e.key) == |done|;
    assert es[..|done|] == done && es[|done| + 1..] == rest;
  }
}
