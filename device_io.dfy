/**
  The collaborators that the local test harness calls but does not implement:
  the values held in a party's symbol table, plaintext buffers, the runtime
  configuration and the I/O client that splits a plaintext into shares and
  combines shares back into a plaintext. The secret-sharing scheme itself is
  an injected capability: the client only delegates to it.
 */
module DeviceIo {

  datatype Option<+T> = None | Some(value: T)

  /** Dimensions of a multi-dimensional array. */
  type Shape = seq<nat>

  /** Plaintext element type, as a code of the PtType enumeration (PT_I32, PT_F32, ...). */
  type PtType = nat

  /** One party's fragment of a value; beyond its shape its payload is opaque. */
  datatype Share = Share(shape: Shape, payload: seq<bv8>)

  /** A party's named-variable store; setting a name again overwrites it. */
  type SymbolTable = map<string, Share>

  datatype Visibility = Public | Secret

  /** A plaintext buffer handed to the harness to be fed. */
  datatype PtBufferView = PtBufferView(ptType: PtType, shape: Shape, elements: seq<int>)

  /** A plaintext array allocated by the harness and filled by the combiner. */
  datatype NdArray = NdArray(ptType: PtType, shape: Shape, elements: seq<int>)

  /** A runtime configuration, partial or fully resolved; its fields are opaque here. */
  datatype RuntimeConfig = RuntimeConfig(fields: map<string, string>)

  /**
    The secret-sharing scheme: `split` turns a plaintext into shares (one per
    party when it behaves), `ptTypeOf` infers the plaintext type of a set of
    shares and `combine` yields the elements written into the output buffer.
    Each receives the world size and the resolved configuration of its client;
    `split` also receives the index of the random draw it consumes, so shares
    of the same plaintext taken in two different calls need not be equal.
   */
  datatype SharingScheme = SharingScheme(
    split: (nat, RuntimeConfig, nat, PtBufferView, Visibility, int) -> seq<Share>,
    ptTypeOf: seq<Share> -> PtType,
    combine: (nat, RuntimeConfig, seq<Share>, PtType, Shape) -> seq<int>)

  /**
    The I/O client bound to a world size and a resolved configuration.
    `draws` counts the random draws its splitter has consumed so far.
   */
  datatype IoClient = IoClient(worldSize: nat, config: RuntimeConfig, scheme: SharingScheme, draws: nat)
  {
    /** The shares of `view` drawn with the client's next randomness. */
    function MakeShares(view: PtBufferView, vtype: Visibility, ownerRank: int): seq<Share>
    {
      scheme.split(worldSize, config, draws, view, vtype, ownerRank)
    }

    /** The client once a split has consumed its next draw. */
    function AfterSplit(): IoClient
    {
      this.(draws := draws + 1)
    }

    function GetPtType(shares: seq<Share>): PtType
    {
      scheme.ptTypeOf(shares)
    }

    /** The elements the combiner writes into a buffer of the given type and shape. */
    function CombineShares(shares: seq<Share>, ptType: PtType, shape: Shape): seq<int>
    {
      scheme.combine(worldSize, config, shares, ptType, shape)
    }
  }
}
