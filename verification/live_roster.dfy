/** The live table a dispatch host keeps: who serves each ref, and what was counted against each key. */
module LiveRosters {
  import opened BrokerSpec

  class LiveRoster {
    var links: map<AgentRef, Connection>
    var counters: Counters

    constructor ()
      ensures links == map[] && counters == map[]
    {
      links, counters := map[], map[];
    }

    method Attach(mapping: map<AgentRef, Connection>)
      modifies this
      ensures links == old(links) + mapping && counters == old(counters)
    {
      links := links + mapping;
    }

    method Withdraw(refs: seq<AgentRef>)
      modifies this
      ensures links == old(links) - (set a | a in refs) && counters == old(counters)
    {
      for i := 0 to |refs|
        invariant links == old(links) - (set a | a in refs[..i]) && counters == old(counters)
      {
        assert refs[..i + 1] == refs[..i] + [refs[i]];
        links := links - {refs[i]};
      }
      assert refs[..|refs|] == refs;
    }

    method ServedBy(key: Key) returns (refs: seq<AgentRef>)
      ensures (set a | a in refs) == set a | a in links && a.providerKey == key
    {
      refs := [];
      var unseen := links.Keys;
      while unseen != {}
        invariant unseen <= links.Keys
        invariant forall a :: a in refs <==> a in links && a !in unseen && a.providerKey == key
        decreases unseen
      {
        var a :| a in unseen;
        unseen := unseen - {a};
        if a.providerKey == key {
          refs := refs + [a];
        }
      }
    }

    method NoteEvent(key: Key, counter: Counter)
      modifies this
      ensures counters == Note(old(counters), key, counter) && links == old(links)
      ensures forall k, e :: Count(counters, k, e)
                == Count(old(counters), k, e) + if k == key && e == counter then 1 else 0
    {
      if key !in counters {
        counters := counters[key := NO_COUNTS];
      }
      var bucket := counters[key];
      counters := counters[key := bucket[counter := (if counter in bucket then bucket[counter] else 0) + 1]];
      assert counters == Note(old(counters), key, counter);
    }
  }
}
