// A Python dict of strings: its entries in insertion order, with distinct keys.
module OrderedDict {

  datatype Entry = Entry(key: string, text: string)

  type Dict = seq<Entry>

  ghost predicate Distinct(es: Dict) {
    forall i, j :: 0 <= i < j < |es| ==> es[i].key != es[j].key
  }

  predicate Has(es: Dict, key: string) {
    exists i :: 0 <= i < |es| && es[i].key == key
  }

  // Where a key first stands.
  function At(es: Dict, key: string): (r: nat)
    requires Has(es, key)
    ensures r < |es| && es[r].key == key
    ensures forall i :: 0 <= i < r ==> es[i].key != key
  {
    if es[0].key == key then 0
    else
      assert Has(es[1..], key) by {
        var i :| 0 <= i < |es| && es[i].key == key;
        assert es[1..][i - 1].key == key;
      }
      At(es[1..], key) + 1
  }

  function Lookup(es: Dict, key: string): string
    requires Has(es, key)
  {
    es[At(es, key)].text
  }

  // d[key] = text: in place when the key is there, at the end otherwise
  function Put(es: Dict, key: string, text: string): Dict {
    if Has(es, key) then es[At(es, key) := Entry(key, text)] else es + [Entry(key, text)]
  }

  // del d[key], where a missing key is no error
  function Drop(es: Dict, key: string): Dict {
    if Has(es, key) then es[..At(es, key)] + es[At(es, key) + 1..] else es
  }

  function KeysOf(es: Dict): (ks: seq<string>)
    ensures |ks| == |es| && forall i :: 0 <= i < |es| ==> ks[i] == es[i].key
  {
    seq(|es|, i requires 0 <= i < |es| => es[i].key)
  }

  lemma AtUnique(es: Dict, i: nat)
    requires i < |es| && Distinct(es)
    ensures Has(es, es[i].key) && At(es, es[i].key) == i
  {
  }

  lemma PutDistinct(es: Dict, key: string, text: string)
    requires Distinct(es)
    ensures Distinct(Put(es, key, text))
  {
  }

  lemma PutAbsent(es: Dict, key: string, text: string)
    requires !Has(es, key)
    ensures Put(es, key, text) == es + [Entry(key, text)]
  {
  }

  lemma DropDistinct(es: Dict, key: string)
    requires Distinct(es)
    ensures Distinct(Drop(es, key)) && !Has(Drop(es, key), key)
  {
  }

  // Reading back what was put, and nothing else changes.
  lemma PutThenGet(es: Dict, key: string, text: string, other: string)
    requires Distinct(es)
    ensures Has(Put(es, key, text), other) <==> other == key || Has(es, other)
    ensures Has(Put(es, key, text), key) && Lookup(Put(es, key, text), key) == text
    ensures other != key && Has(es, other) ==> Lookup(Put(es, key, text), other) == Lookup(es, other)
  {
    var es' := Put(es, key, text);
    PutDistinct(es, key, text);
    var i := if Has(es, key) then At(es, key) else |es|;
    assert es'[i] == Entry(key, text);
    AtUnique(es', i);
    if Has(es, other) && other != key {
      assert es'[At(es, other)] == es[At(es, other)];
      AtUnique(es', At(es, other));
    }
    if Has(es', other) && other != key {
      assert es[At(es', other)].key == other;
    }
  }

  // ----- keys under a prefix -----

  predicate Claimed(key: string, prefixes: seq<string>) {
    exists i :: 0 <= i < |prefixes| && prefixes[i] <= key
  }

  // The entries whose key starts with none of the prefixes.
  function Unclaimed(es: Dict, prefixes: seq<string>): Dict {
    if es == [] then []
    else (if Claimed(es[0].key, prefixes) then [] else [es[0]]) + Unclaimed(es[1..], prefixes)
  }

  lemma {:induction false} UnclaimedMembers(es: Dict, prefixes: seq<string>)
    ensures forall e :: e in Unclaimed(es, prefixes) <==> e in es && !Claimed(e.key, prefixes)
  {
    if es != [] {
      UnclaimedMembers(es[1..], prefixes);
      assert forall e :: e in es <==> e == es[0] || e in es[1..];
    }
  }

  lemma {:induction false} UnclaimedDistinct(es: Dict, prefixes: seq<string>)
    requires Distinct(es)
    ensures Distinct(Unclaimed(es, prefixes))
  {
    if es != [] {
      UnclaimedDistinct(es[1..], prefixes);
      UnclaimedMembers(es[1..], prefixes);
      var rest := Unclaimed(es[1..], prefixes);
      assert forall j :: 0 <= j < |rest| ==> rest[j] in es[1..];
    }
  }

  lemma {:induction false} UnclaimedConcat(es: Dict, more: Dict, prefixes: seq<string>)
    ensures Unclaimed(es + more, prefixes) == Unclaimed(es, prefixes) + Unclaimed(more, prefixes)
  {
    if es == [] {
      assert es + more == more;
    } else {
      assert (es + more)[1..] == es[1..] + more;
      UnclaimedConcat(es[1..], more, prefixes);
    }
  }

  lemma {:induction false} UnclaimedNone(es: Dict, prefixes: seq<string>)
    requires forall i :: 0 <= i < |es| ==> !Claimed(es[i].key, prefixes)
    ensures Unclaimed(es, prefixes) == es
  {
    if es != [] {
      UnclaimedNone(es[1..], prefixes);
    }
  }

  lemma {:induction false} UnclaimedTwice(es: Dict, first: seq<string>, second: seq<string>)
    ensures Unclaimed(Unclaimed(es, first), second) == Unclaimed(es, first + second)
  {
    if es != [] {
      UnclaimedTwice(es[1..], first, second);
      var key := es[0].key;
      ClaimedConcat(key, first, second);
      if Claimed(key, first) {
        assert Unclaimed(es, first) == Unclaimed(es[1..], first);
      } else {
        assert Unclaimed(es, first) == [es[0]] + Unclaimed(es[1..], first);
      }
    }
  }

  lemma ClaimedConcat(key: string, first: seq<string>, second: seq<string>)
    ensures Claimed(key, first + second) <==> Claimed(key, first) || Claimed(key, second)
  {
    if Claimed(key, first) {
      var i :| 0 <= i < |first| && first[i] <= key;
      assert (first + second)[i] <= key;
    }
    if Claimed(key, second) {
      var i :| 0 <= i < |second| && second[i] <= key;
      assert (first + second)[|first| + i] <= key;
    }
  }
}
