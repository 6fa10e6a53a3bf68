/** The update check of the settings panel: the latest published version is fetched
    once and cached, an update is available when it is greater than the installed
    version, and the changelog shown is the slice of the changelog between two
    version headers. The manifest fetch result, the version comparison and the list
    of version headers found in the changelog are inputs. */
module Update {
  import opened Wrappers
  import opened Strings

  /** What the manifest request yields: the HTTP status and, when the body is read, its
      `version` field (absent when the manifest has none) */
  datatype ManifestResponse = ManifestResponse(ok: bool, status: int, statusText: string, version: Option<string>)

  /** The module-level `max_version` cache */
  class VersionCache {
    var maxVersion: Option<string>
    /** Number of manifest requests made so far */
    var fetches: nat

    constructor()
      ensures maxVersion == None && fetches == 0
    {
      maxVersion := None;
      fetches := 0;
    }

    predicate Cached()
      reads this
    {
      maxVersion.Some? && Truthy(maxVersion.value)
    }

    /** `getLatestVersion`: `response` is what the request would return if it is made */
    method GetLatestVersion(response: ManifestResponse) returns (r: Result<Option<string>>)
      modifies this
      ensures old(Cached()) ==> r == Ok(old(maxVersion)) && maxVersion == old(maxVersion) && fetches == old(fetches)
      ensures !old(Cached()) ==> fetches == old(fetches) + 1
      ensures !old(Cached()) && !response.ok ==> r.Err? && maxVersion == old(maxVersion)
      ensures !old(Cached()) && response.ok ==> maxVersion == response.version && r == Ok(response.version)
    {
      if !Cached() {
        fetches := fetches + 1;
        if !response.ok {
          return Err("Failed to get the latest version number: " + IntToString(response.status) + " " + response.statusText);
        }
        maxVersion := response.version;
      }
      return Ok(maxVersion);
    }

    /** `hasUpdate`: the latest version compared with the installed one by the
        version-comparison library (`greater`); an absent version is rejected by it */
    method HasUpdate(response: ManifestResponse, installed: string, greater: (string, string) -> bool)
      returns (r: Result<bool>)
      modifies this
      ensures old(Cached()) ==> fetches == old(fetches) && r == Ok(greater(old(maxVersion).value, installed))
      ensures r.Ok? ==> maxVersion.Some? && r.value == greater(maxVersion.value, installed)
      ensures !old(Cached()) && !response.ok ==> r.Err?
    {
      var latest := GetLatestVersion(response);
      if latest.Err? {
        return Err(latest.message);
      }
      if latest.value.None? {
        return Err("Invalid argument expected string");
      }
      return Ok(greater(latest.value.value, installed));
    }
  }

  /** A version header found in the changelog: the version and where the header starts */
  datatype Header = Header(version: string, index: nat)

  /** `String.prototype.substring`: both bounds clamped into the string, swapped when reversed */
  function Substring(s: string, a: int, b: int): (r: string)
    ensures exists i, j :: 0 <= i <= j <= |s| && r == s[i..j]
  {
    var x := if a < 0 then 0 else if a > |s| then |s| else a;
    var y := if b < 0 then 0 else if b > |s| then |s| else b;
    if x <= y then s[x..y] else s[y..x]
  }

  lemma {:induction false} SubstringSymmetric(s: string, a: int, b: int)
    ensures Substring(s, a, b) == Substring(s, b, a)
  {
  }

  /** `matches.find(match => match[1] === version)` */
  function FindVersion(headers: seq<Header>, version: string): (r: Option<nat>)
    ensures r.Some? ==> r.value < |headers| && headers[r.value].version == version
    ensures r.Some? ==> forall k :: 0 <= k < r.value ==> headers[k].version != version
    ensures r.None? <==> forall k :: 0 <= k < |headers| ==> headers[k].version != version
  {
    if headers == [] then None
    else if headers[0].version == version then Some(0)
    else match FindVersion(headers[1..], version)
      case None => None
      case Some(k) => Some(k + 1)
  }

  /** `matches.find(match => match.index > start)` */
  function FindAfter(headers: seq<Header>, start: nat): (r: Option<nat>)
    ensures r.Some? ==> r.value < |headers| && headers[r.value].index > start
    ensures r.Some? ==> forall k :: 0 <= k < r.value ==> headers[k].index <= start
    ensures r.None? <==> forall k :: 0 <= k < |headers| ==> headers[k].index <= start
  {
    if headers == [] then None
    else if headers[0].index > start then Some(0)
    else match FindAfter(headers[1..], start)
      case None => None
      case Some(k) => Some(k + 1)
  }

  /** The section bounds `getChangelogBetween` selects: from the max header to the next
      header when `min >= max`, else between the min and the max headers */
  function SectionBounds(changelog: string, headers: seq<Header>, minVersion: string, maxVersion: string,
                         atLeast: bool): (r: Result<(nat, nat)>)
    ensures atLeast ==> (r.Ok? <==> FindVersion(headers, maxVersion).Some?)
    ensures !atLeast ==> (r.Ok? <==> FindVersion(headers, minVersion).Some? && FindVersion(headers, maxVersion).Some?)
    ensures atLeast && r.Ok? ==> r.value.0 == headers[FindVersion(headers, maxVersion).value].index
    ensures atLeast && r.Ok? ==>
              r.value.1 == (if FindAfter(headers, r.value.0).Some? then headers[FindAfter(headers, r.value.0).value].index
                            else |changelog|)
    ensures !atLeast && r.Ok? ==>
              r.value == (headers[FindVersion(headers, minVersion).value].index,
                          headers[FindVersion(headers, maxVersion).value].index)
  {
    if atLeast then
      match FindVersion(headers, maxVersion)
      case None => Err("Failed to get changelog")
      case Some(m) =>
        var start := headers[m].index;
        var end := match FindAfter(headers, start)
                   case Some(n) => headers[n].index
                   case None => |changelog|;
        Ok((start, end))
    else
      match FindVersion(headers, minVersion)
      case None => Err("Could not find changelog for version '" + minVersion + "'")
      case Some(lo) =>
        match FindVersion(headers, maxVersion)
        case None => Err("Could not find changelog for version '" + maxVersion + "'")
        case Some(hi) => Ok((headers[lo].index, headers[hi].index))
  }

  /** `getChangelogBetween(min, max)`; `atLeast` is the library's `compare(min, max, '>=')` */
  function ChangelogBetween(changelog: string, headers: seq<Header>, minVersion: string, maxVersion: string,
                            atLeast: bool): (r: Result<string>)
    ensures r.Ok? <==> SectionBounds(changelog, headers, minVersion, maxVersion, atLeast).Ok?
    ensures r.Ok? ==> var b := SectionBounds(changelog, headers, minVersion, maxVersion, atLeast).value;
                      r.value == Trim(Substring(changelog, b.0, b.1))
    ensures r.Ok? ==> exists i, j :: 0 <= i <= j <= |changelog| && r.value == Trim(changelog[i..j])
  {
    match SectionBounds(changelog, headers, minVersion, maxVersion, atLeast)
    case Err(e) => Err(e)
    case Ok(b) => Ok(Trim(Substring(changelog, b.0, b.1)))
  }

  predicate SortedByIndex(headers: seq<Header>) {
    forall i, j :: 0 <= i < j < |headers| ==> headers[i].index < headers[j].index
  }

  /** With the headers in file order, the `min >= max` section runs from the max header
      to the very next header: no other header starts strictly inside it */
  lemma {:induction false} LatestSectionHasNoInnerHeader(changelog: string, headers: seq<Header>, minVersion: string,
                                                         maxVersion: string, k: nat)
    requires SortedByIndex(headers)
    requires SectionBounds(changelog, headers, minVersion, maxVersion, true).Ok?
    requires k < |headers|
    ensures var b := SectionBounds(changelog, headers, minVersion, maxVersion, true).value;
            !(b.0 < headers[k].index < b.1)
  {
    var m := FindVersion(headers, maxVersion).value;
    var start := headers[m].index;
    match FindAfter(headers, start)
    case None =>
    case Some(n) =>
      if k > n {
        assert headers[n].index < headers[k].index;
      }
  }

  /** With the headers in file order, the `min >= max` section ends where the header
      after the max header starts, or at the end of the file when it is the last one */
  lemma {:induction false} LatestSectionReachesNextHeader(changelog: string, headers: seq<Header>, minVersion: string,
                                                          maxVersion: string)
    requires SortedByIndex(headers)
    requires SectionBounds(changelog, headers, minVersion, maxVersion, true).Ok?
    ensures var m := FindVersion(headers, maxVersion).value;
            SectionBounds(changelog, headers, minVersion, maxVersion, true).value.1
              == (if m + 1 < |headers| then headers[m + 1].index else |changelog|)
  {
    var m := FindVersion(headers, maxVersion).value;
    if m + 1 < |headers| {
      assert headers[m].index < headers[m + 1].index;
      assert FindAfter(headers, headers[m].index) == Some(m + 1) by {
        forall k | 0 <= k <= m
          ensures headers[k].index <= headers[m].index
        {
          if k < m {
            assert headers[k].index < headers[m].index;
          }
        }
      }
    }
  }

  /** When `min < max`, the section does not depend on which of the two headers comes
      first in the file */
  lemma {:induction false} OlderSectionEitherOrder(changelog: string, headers: seq<Header>, minVersion: string, maxVersion: string)
    requires ChangelogBetween(changelog, headers, minVersion, maxVersion, false).Ok?
    ensures ChangelogBetween(changelog, headers, maxVersion, minVersion, false)
            == ChangelogBetween(changelog, headers, minVersion, maxVersion, false)
  {
    var lo := headers[FindVersion(headers, minVersion).value].index;
    var hi := headers[FindVersion(headers, maxVersion).value].index;
    SubstringSymmetric(changelog, lo, hi);
  }
}
