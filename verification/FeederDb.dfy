/** The snapshot of valid feeders, replaced as a whole by every poll, and the two searches made in it. */
module FeederDb {
  import opened Common

  datatype Feeder = Feeder(key: ApiKey, latitude: real, longitude: real, mux: string, labelText: string, code: string)

  /** One poll: the feeder list, or an error. */
  datatype Fetch = Fetched(feeders: seq<Feeder>) | FetchFailed

  /** The details of a client being authenticated, filled in step by step. */
  class FeederClient {
    var key: ApiKey
    var latitude: real
    var longitude: real
    var mux: string
    var labelText: string
    var code: string

    constructor (key: ApiKey)
      ensures this.key == key
    {
      this.key := key;
      latitude, longitude, mux, labelText, code := 0.0, 0.0, "", "", "";
    }

    ghost predicate Describes(f: Feeder)
      reads this
    {
      && key == f.key && latitude == f.latitude && longitude == f.longitude && mux == f.mux
      && labelText == f.labelText && code == f.code
    }
  }

  ghost function Keys(feeders: seq<Feeder>): set<ApiKey> {
    set f | f in feeders :: f.key
  }

  /** `f` is listed, and nothing before it has the same key. */
  ghost predicate IsFirstListed(feeders: seq<Feeder>, f: Feeder) {
    exists i: nat :: i < |feeders| && feeders[i] == f && forall j :: 0 <= j < i ==> feeders[j].key != f.key
  }

  /** What a poll leaves as the list of valid feeders: nothing at all after an error. */
  function StoredBy(fetch: Fetch): seq<Feeder> {
    match fetch
    case Fetched(feeders) => feeders
    case FetchFailed => []
  }

  class ValidFeeders {
    var feeders: seq<Feeder>

    constructor ()
      ensures feeders == []
    {
      feeders := [];
    }

    method IsValidApiKey(key: ApiKey) returns (valid: bool)
      ensures valid <==> key in Keys(feeders)
    {
      for i := 0 to |feeders|
        invariant forall j :: 0 <= j < i ==> feeders[j].key != key
      {
        if feeders[i].key == key {
          return true;
        }
      }
      return false;
    }

    /** Fills in the client from the first entry with its key, or leaves it alone. */
    method GetFeederInfo(f: FeederClient) returns (found: bool)
      modifies f
      ensures found <==> old(f.key) in Keys(feeders)
      ensures f.key == old(f.key)
      ensures found ==> exists vf :: IsFirstListed(feeders, vf) && f.Describes(vf)
      ensures !found ==> unchanged(f)
    {
      found := false;
      var i := 0;
      while i < |feeders|
        invariant 0 <= i <= |feeders| && !found && unchanged(f)
        invariant forall j :: 0 <= j < i ==> feeders[j].key != f.key
      {
        var vf := feeders[i];
        if vf.key == f.key {
          f.latitude, f.longitude, f.mux := vf.latitude, vf.longitude, vf.mux;
          f.labelText, f.code := vf.labelText, vf.code;
          found := true;
          assert IsFirstListed(feeders, vf) && f.Describes(vf);
          break;
        }
        i := i + 1;
      }
    }

    /** One round of the polling loop: whatever the fetch returned replaces the list, a failed one too. */
    method Poll(fetch: Fetch)
      modifies this
      ensures feeders == StoredBy(fetch)
      ensures fetch.FetchFailed? ==> feeders == []
      ensures fetch.Fetched? ==> feeders == fetch.feeders
    {
      match fetch {
        case Fetched(fetched) => feeders := fetched;
        case FetchFailed => feeders := [];
      }
    }
  }

  /** A listed key has exactly one entry that its details are taken from. */
  lemma FirstListedIsUnique(feeders: seq<Feeder>, f: Feeder, g: Feeder)
    requires IsFirstListed(feeders, f) && IsFirstListed(feeders, g) && f.key == g.key
    ensures f == g
  {
    var i: nat :| i < |feeders| && feeders[i] == f && forall j :: 0 <= j < i ==> feeders[j].key != f.key;
    var k: nat :| k < |feeders| && feeders[k] == g && forall j :: 0 <= j < k ==> feeders[j].key != g.key;
  }

  /** A key is listed exactly if it has such an entry. */
  lemma {:induction false} ListedIffFirst(feeders: seq<Feeder>, key: ApiKey)
    ensures key in Keys(feeders) <==> exists f :: IsFirstListed(feeders, f) && f.key == key
  {
    if key in Keys(feeders) {
      var i: nat :| i < |feeders| && feeders[i].key == key;
      FirstBefore(feeders, key, i);
    }
  }

  lemma {:induction false} FirstBefore(feeders: seq<Feeder>, key: ApiKey, i: nat)
    requires i < |feeders| && feeders[i].key == key
    ensures exists f :: IsFirstListed(feeders, f) && f.key == key
  {
    if j :| 0 <= j < i && feeders[j].key == key {
      FirstBefore(feeders, key, j);
    } else {
      assert IsFirstListed(feeders, feeders[i]);
    }
  }
}
