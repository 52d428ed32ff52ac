/**
 * The queue of received packages kept by a network connection controller.
 * The connection delivers each incoming message as a 16-bit type id plus a
 * payload; the controller turns it into a package when some registered
 * prototype has that type, and the game polls the queue by handle.
 */
module ConnectionController {

  /** The type of a queued package as the game sees it; `Reserved` answers a handle past the queue. */
  datatype PackageType = Reserved | Kind(id: nat)

  /** A package built from a received message: its type and the payload it was built from. */
  datatype Package = Package(id: nat, data: string)

  /** A type id on the wire is 16 bits wide. */
  predicate IsWireId(id: int)
  {
    0 <= id < 0x1_0000
  }

  /** `getPackageType` over a queue. */
  function TypeOf(q: seq<Package>, handle: nat): (t: PackageType)
    ensures t.Reserved? <==> handle >= |q|
    ensures handle < |q| ==> t == Kind(q[handle].id)
  {
    if handle < |q| then Kind(q[handle].id) else Reserved
  }

  /** The queue after a message with type `id` arrives, given the types of the registered prototypes. */
  function Receive(q: seq<Package>, prototypes: seq<nat>, id: nat, data: string): seq<Package>
  {
    if id in prototypes then q + [Package(id, data)] else q
  }

  /** The queue after `clearPackages(n)`. */
  function Clear(q: seq<Package>, n: nat): seq<Package>
    requires n <= |q|
  {
    q[n..]
  }

  /**
   * A registered type adds exactly one package, at the end, and every
   * handle already queued keeps its type; an unregistered one adds none.
   */
  lemma ReceiveSpec(q: seq<Package>, prototypes: seq<nat>, id: nat, data: string)
    ensures |Receive(q, prototypes, id, data)| == |q| + (if id in prototypes then 1 else 0)
    ensures forall h: nat :: h < |q| ==> TypeOf(Receive(q, prototypes, id, data), h) == TypeOf(q, h)
    ensures TypeOf(Receive(q, prototypes, id, data), |q|) == if id in prototypes then Kind(id) else Reserved
  {
  }

  /** After clearing n packages, handle h names what handle h + n named before. */
  lemma ClearShifts(q: seq<Package>, n: nat, h: nat)
    requires n <= |q|
    ensures TypeOf(Clear(q, n), h) == TypeOf(q, h + n)
  {
  }

  /** Clearing in two steps clears the sum. */
  lemma ClearTwice(q: seq<Package>, a: nat, b: nat)
    requires a + b <= |q|
    ensures b <= |Clear(q, a)| && Clear(Clear(q, a), b) == Clear(q, a + b)
  {
  }

  /** A package received after the queue was read and cleared is the only one left. */
  lemma ClearAllThenReceive(q: seq<Package>, prototypes: seq<nat>, id: nat, data: string)
    requires id in prototypes
    ensures Receive(Clear(q, |q|), prototypes, id, data) == [Package(id, data)]
  {
  }

  class Controller {
    /** The types of the prototypes the controller was built with. */
    const prototypes: seq<nat>
    /** Whether the controller holds a connection object. */
    const connected: bool
    var received: seq<Package>
    /** Every (buffer, id) pair handed to the connection for writing, oldest first. */
    var written: seq<(string, nat)>

    constructor (prototypes: seq<nat>, connected: bool)
      ensures this.prototypes == prototypes && this.connected == connected
      ensures received == [] && written == []
    {
      this.prototypes := prototypes;
      this.connected := connected;
      received := [];
      written := [];
    }

    /** `getNumPackages`. */
    method NumPackages() returns (n: nat)
      ensures n == |received|
    {
      n := |received|;
    }

    /** `getPackage`: a handle is the index itself. */
    method GetPackage(index: nat) returns (handle: nat)
      ensures handle == index
    {
      handle := index;
    }

    /** `getPackageType`. */
    method GetPackageType(handle: nat) returns (t: PackageType)
      ensures t == TypeOf(received, handle)
    {
      if handle < |received| {
        t := Kind(received[handle].id);
      } else {
        t := Reserved;
      }
    }

    /** `clearPackages`: erases the n oldest packages. */
    method ClearPackages(n: nat)
      requires n <= |received|
      modifies this
      ensures received == Clear(old(received), n)
      ensures written == old(written)
    {
      received := received[n..];
    }

    /** `writeData`: forwards to the connection only when there is one. */
    method WriteData(buffer: string, id: nat)
      requires IsWireId(id)
      modifies this
      ensures written == if connected then old(written) + [(buffer, id)] else old(written)
      ensures received == old(received)
    {
      if connected {
        written := written + [(buffer, id)];
      }
    }

    /** `savePackageCallBack`: the first prototype of that type builds a package; otherwise the message is dropped. */
    method SavePackage(id: nat, data: string)
      requires IsWireId(id)
      modifies this
      ensures received == Receive(old(received), prototypes, id, data)
      ensures written == old(written)
    {
      var i := 0;
      while i < |prototypes|
        invariant 0 <= i <= |prototypes|
        invariant id !in prototypes[..i]
        invariant received == old(received) && written == old(written)
      {
        if prototypes[i] == id {
          received := received + [Package(id, data)];
          return;
        }
        i := i + 1;
      }
      assert prototypes[..i] == prototypes;
    }
  }
}
