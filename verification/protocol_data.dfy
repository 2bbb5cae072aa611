/** The library's protocol record and the shipped (empty) protocol catalogue. */
module ProtocolData {
  import opened Wrappers

  datatype Category = Breathing | Cold | Sleep | Nutrition | Activity | Mobility | Stretching

  /** A protocol of the library; `completed` out of `total` sessions done. */
  datatype Protocol = Protocol(
    id: string, name: string, category: Category, duration: string, durationSeconds: int,
    description: string, completed: int, total: int,
    steps: seq<string>, benefits: seq<string>, references: seq<string>)

  /** The catalogue ships empty; protocols are added at run time. */
  const ProtocolsData: seq<Protocol> := []

  /** Position of the first protocol with that id, or the length when there is none. */
  function FirstIndexOf(protocols: seq<Protocol>, id: string): (k: nat)
    ensures k <= |protocols|
    ensures k < |protocols| ==> protocols[k].id == id
    ensures forall j :: 0 <= j < k ==> protocols[j].id != id
  {
    if protocols == [] || protocols[0].id == id then 0 else 1 + FirstIndexOf(protocols[1..], id)
  }

  /** Array.prototype.find by id: the first protocol with that id, if any. */
  function FindById(protocols: seq<Protocol>, id: string): (r: Option<Protocol>)
    ensures r.None? <==> forall i :: 0 <= i < |protocols| ==> protocols[i].id != id
    ensures r.Some? ==> r.value.id == id && r.value == protocols[FirstIndexOf(protocols, id)]
  {
    var k := FirstIndexOf(protocols, id);
    if k < |protocols| then Some(protocols[k]) else None
  }

  /** getProtocolById over the shipped catalogue: always undefined, as the catalogue is empty. */
  function GetProtocolById(id: string): (r: Option<Protocol>)
    ensures r.None?
  {
    FindById(ProtocolsData, id)
  }

  /** addProtocol: a new list, the catalogue followed by the protocol; the catalogue is a constant. */
  function AddProtocol(protocol: Protocol): (r: seq<Protocol>)
    ensures |r| == |ProtocolsData| + 1 && r[|r| - 1] == protocol
    ensures r[..|ProtocolsData|] == ProtocolsData
  {
    ProtocolsData + [protocol]
  }
}
