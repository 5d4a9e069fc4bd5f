/** The device list: the server-side verification filter, the client-side search over the
    fetched devices, and the rule that administrators' own devices are never listed. */
module Devices {
  import opened Wrappers
  import opened Strings
  import Seqs

  const AllDevices := "all"
  const AdminPrefix := "admin-"

  datatype DeviceUser = DeviceUser(id: string, name: string, email: string, role: string)

  datatype Device = Device(
    id: string, deviceId: string, deviceInfo: string, verified: bool,
    createdAt: string, updatedAt: string, user: DeviceUser)

  /** An administrator's device: its id starts with `admin-` (case-sensitive). */
  predicate IsAdminDevice(d: Device) {
    StartsWith(d.deviceId, AdminPrefix)
  }

  /** The lower-cased search text occurs in the device id, the owner's email or the owner's
      name, each lower-cased. */
  predicate MatchesSearch(d: Device, searchLower: string) {
    || Contains(ToLower(d.deviceId), searchLower)
    || Contains(ToLower(d.user.email), searchLower)
    || Contains(ToLower(d.user.name), searchLower)
  }

  /** The predicate `filterDevicesBySearch` hands to `filter`. */
  function SearchPredicate(searchLower: string): Device -> bool {
    d => !IsAdminDevice(d) && MatchesSearch(d, searchLower)
  }

  /** `filterDevicesBySearch`. */
  function FilterDevicesBySearch(devices: seq<Device>, search: string): seq<Device> {
    if search == "" then devices else Seqs.Filter(SearchPredicate(ToLower(search)), devices)
  }

  /** The predicate of the non-admin pre-filter. */
  function NotAdmin(d: Device): bool {
    !IsAdminDevice(d)
  }

  /** The `filteredDevices` memo: nothing without data; otherwise the non-admin devices,
      narrowed by the search. */
  function FilteredDevices(fetched: Option<seq<Device>>, search: string): seq<Device> {
    if fetched.None? then [] else FilterDevicesBySearch(Seqs.Filter(NotAdmin, fetched.value), search)
  }

  /** With an empty search the devices come back unchanged; with a non-empty one the result
      keeps, in their original order, exactly the non-admin devices that match the search:
      nothing else (soundness) and nothing fewer (completeness). */
  lemma SearchSoundCompleteOrdered(devices: seq<Device>, search: string)
    ensures search == "" ==> FilterDevicesBySearch(devices, search) == devices
    ensures Seqs.Subsequence(FilterDevicesBySearch(devices, search), devices)
    ensures search != "" ==> forall d ::
      d in FilterDevicesBySearch(devices, search) <==>
        d in devices && !IsAdminDevice(d) && MatchesSearch(d, ToLower(search))
  {
    if search == "" {
      Seqs.FilterKeepsAll((d: Device) => true, devices);
      assert Seqs.Filter((d: Device) => true, devices) == devices;
      Seqs.FilterIsSubsequence((d: Device) => true, devices);
    } else {
      var p := SearchPredicate(ToLower(search));
      Seqs.FilterIsSubsequence(p, devices);
      forall d ensures d in Seqs.Filter(p, devices) <==> d in devices && p(d) {
        Seqs.FilterMembership(p, devices, d);
      }
    }
  }

  /** Searching again with the same text changes nothing. */
  lemma SearchIdempotent(devices: seq<Device>, search: string)
    ensures FilterDevicesBySearch(FilterDevicesBySearch(devices, search), search) == FilterDevicesBySearch(devices, search)
  {
    if search != "" {
      Seqs.FilterIdempotent(SearchPredicate(ToLower(search)), devices);
    }
  }

  /** The listed devices never include an administrator's, even with an empty search; there
      are none without data; and a fetched device is listed exactly when it is not an
      administrator's and the search is empty or matches it. The list keeps the fetched order. */
  lemma FilteredDevicesSpec(fetched: Option<seq<Device>>, search: string)
    ensures fetched.None? ==> FilteredDevices(fetched, search) == []
    ensures forall d :: d in FilteredDevices(fetched, search) ==> !IsAdminDevice(d)
    ensures fetched.Some? ==> forall d ::
      d in FilteredDevices(fetched, search) <==>
        d in fetched.value && !IsAdminDevice(d) && (search == "" || MatchesSearch(d, ToLower(search)))
    ensures fetched.Some? ==> Seqs.Subsequence(FilteredDevices(fetched, search), fetched.value)
  {
    if fetched.Some? {
      var nonAdmin := Seqs.Filter(NotAdmin, fetched.value);
      forall d ensures d in nonAdmin <==> d in fetched.value && NotAdmin(d) {
        Seqs.FilterMembership(NotAdmin, fetched.value, d);
      }
      SearchSoundCompleteOrdered(nonAdmin, search);
      Seqs.FilterIsSubsequence(NotAdmin, fetched.value);
      Seqs.SubsequenceTransitive(FilteredDevices(fetched, search), nonAdmin, fetched.value);
    }
  }

  /** `data?.total || 0`: the total the server reports, or zero while there is no data. */
  function TotalOrZero(total: Option<int>): (r: int)
    ensures total.None? ==> r == 0
    ensures total.Some? ==> r == total.value
  {
    total.GetOr(0)
  }

  /** The parameters `getDevices` is called with. */
  datatype DeviceQuery = DeviceQuery(filter: Option<string>)

  /** The query for a verification filter: `'all'` is left out. */
  function QueryFor(verifiedFilter: string): (q: DeviceQuery)
    ensures q.filter.None? <==> verifiedFilter == AllDevices
    ensures q.filter.Some? ==> q.filter.value == verifiedFilter
  {
    DeviceQuery(if verifiedFilter != AllDevices then Some(verifiedFilter) else None)
  }

  /** `useDevices`: the search text and the verification filter with their setters. */
  class DeviceList {
    var search: string
    var verifiedFilter: string

    /** The query the devices are fetched with; the search is applied on the client. */
    function Query(): DeviceQuery
      reads this
    {
      QueryFor(verifiedFilter)
    }

    /** The `devices` the hook returns for the fetched data: none without data, never an
        administrator's, and otherwise in fetched order exactly the devices the current search
        matches (all non-admin devices when the search is empty). */
    function Listed(fetched: Option<seq<Device>>): (r: seq<Device>)
      reads this
      ensures fetched.None? ==> r == []
      ensures forall d :: d in r ==> !IsAdminDevice(d)
      ensures fetched.Some? ==> forall d ::
        d in r <==> d in fetched.value && !IsAdminDevice(d) && (search == "" || MatchesSearch(d, ToLower(search)))
      ensures fetched.Some? ==> Seqs.Subsequence(r, fetched.value)
    {
      FilteredDevicesSpec(fetched, search);
      FilteredDevices(fetched, search)
    }

    constructor ()
      ensures search == "" && verifiedFilter == AllDevices
      ensures Query() == DeviceQuery(None)
    {
      search := "";
      verifiedFilter := AllDevices;
    }

    /** `handleSearchChange`: only the search changes; the fetch is not repeated. */
    method HandleSearchChange(value: string)
      modifies this
      ensures search == value && verifiedFilter == old(verifiedFilter)
      ensures Query() == old(Query())
    {
      search := value;
    }

    /** `handleVerifiedFilterChange`: only the filter changes. */
    method HandleVerifiedFilterChange(value: string)
      modifies this
      ensures verifiedFilter == value && search == old(search)
    {
      verifiedFilter := value;
    }
  }
}
