/** signerd's own record of each channel: channelStore.ts. The file is what a reader of it would parse. */
module ChannelStore {
  import opened Decimal
  import opened Wrappers

  datatype ChannelEntry = ChannelEntry(
    agentId: string,
    network: string,
    scriptHash: string,
    asset: string,
    payTo: string,
    providerKey: string,
    signedMax: string,
    anchor: string,
    deposit: string,
    reserve: string,
    reserveFrom: Option<string>,
    status: string,
    openedAt: int)

  type Index = map<string, ChannelEntry>

  predicate IsHex(s: string) {
    forall i | 0 <= i < |s| :: IsDigit(s[i]) || 'a' <= s[i] <= 'f'
  }

  predicate IsTag(id: string) {
    |id| == 64 && IsHex(id)
  }

  /** `/^[0-9a-f]{64}#[0-9]+$/` */
  predicate IsRef(s: string) {
    |s| > 65 && IsHex(s[..64]) && s[64] == '#' && AllDigits(s[65..])
  }

  /** What `readEntry` accepts. */
  predicate Readable(id: string, e: ChannelEntry) {
    && IsTag(id)
    && IsDecimal(e.signedMax) && IsDecimal(e.deposit) && IsDecimal(e.reserve)
    && IsRef(e.anchor)
    && (e.reserveFrom.None? || e.reserveFrom.value == "seller")
    && (e.status == "open" || e.status == "closed")
  }

  predicate AllReadable(index: Index) {
    forall id | id in index :: Readable(id, index[id])
  }

  class Store {
    var channels: Index
    /** None while the file does not exist. */
    var file: Option<Index>

    ghost predicate Valid()
      reads this
    {
      AllReadable(channels) && (if file.Some? then file.value == channels else channels == map[])
    }

    /** The constructor throws, and `loaded` is false, when the file exists and does not read as a store. */
    constructor (file: Option<Index>)
      ensures this.file == file
      ensures file.None? ==> channels == map[] && Valid()
      ensures file.Some? && AllReadable(file.value) ==> channels == file.value && Valid()
    {
      this.file := file;
      this.channels := if file.Some? then file.value else map[];
    }

    method Get(id: string) returns (e: Option<ChannelEntry>)
      ensures e == if id in channels then Some(channels[id]) else None
    {
      e := if id in channels then Some(channels[id]) else None;
    }

    method Entries() returns (all: Index)
      ensures all == channels
    {
      all := channels;
    }

    /**
     * Validates, then replaces the file whole: an entry that does not read changes nothing, and one
     * that does is in memory and in the file, which a restart reads as the same store.
     */
    method Set(id: string, e: ChannelEntry) returns (accepted: bool)
      requires Valid()
      modifies this
      ensures Valid() && accepted == Readable(id, e)
      ensures channels == if accepted then old(channels)[id := e] else old(channels)
      ensures file == if accepted then Some(channels) else old(file)
    {
      if !Readable(id, e) { return false; }
      channels := channels[id := e];
      file := Some(channels);
      accepted := true;
    }
  }
}
