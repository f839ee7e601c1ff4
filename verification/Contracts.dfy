/** Storage contracts: their SQL rows, and the way the audit secrets travel through them. */
module Contracts {
  import opened Words
  import opened Por

  datatype PeerId = PeerId(multihash: seq<bv8>)

  /** The textual form of peer identifiers (base58 in the program). */
  datatype PeerCodec = PeerCodec(encode: PeerId -> string, decode: string -> Option<PeerId>)

  /** Decoding inverts encoding. */
  ghost predicate Faithful(codec: PeerCodec) {
    forall p :: codec.decode(codec.encode(p)) == Some(p)
  }

  /** Only encodings decode. */
  ghost predicate Canonical(codec: PeerCodec) {
    forall s :: codec.decode(s).Some? ==> codec.encode(codec.decode(s).value) == s
  }

  datatype Value = S(s: string) | N(n: I64) | Bs(bytes: seq<bv8>) | B(b: bool) | Null

  datatype Contract = Contract(contractUuid: string, peer: PeerId, fileUuid: string, fileHash: string,
                               uploadDate: I64, ttl: I64, secretN: seq<bv8>, secretM: seq<bv8>,
                               rows: I64, cols: I64)

  datatype RowError = InvalidSqlRow | InvalidPeerId

  datatype Result<T> = Ok(value: T) | Err(error: RowError)

  /** The columns of the contracts table. */
  datatype Column = ContractUuid | Peer | FileUuid | FileHash | UploadDate | Ttl | SecretN | SecretM | Rows | Cols

  /** The order in which the table declares them, and in which rows are read back. */
  const TABLE: seq<Column> :=
    [ContractUuid, Peer, FileUuid, FileHash, UploadDate, Ttl, SecretN, SecretM, Rows, Cols]

  /** The value `create_contract` binds to each column, by name. */
  function Bound(c: Contract, codec: PeerCodec, column: Column): Value {
    match column
    case ContractUuid => S(c.contractUuid)
    case Peer => S(codec.encode(c.peer))
    case FileUuid => S(c.fileUuid)
    case FileHash => S(c.fileHash)
    case UploadDate => N(c.uploadDate)
    case Ttl => N(c.ttl)
    case SecretN => Bs(c.secretN)
    case SecretM => Bs(c.secretM)
    case Rows => N(c.rows)
    case Cols => N(c.cols)
  }

  /** The stored row of a contract, as it is read back. */
  function ToRow(c: Contract, codec: PeerCodec): (row: seq<Value>)
    ensures |row| == 10
  {
    seq(|TABLE|, i requires 0 <= i < |TABLE| => Bound(c, codec, TABLE[i]))
  }

  function Cell(row: seq<Value>, i: nat): Value {
    if i < |row| then row[i] else Null
  }

  /** `map_row_to_contract`: fields are decoded in order and the first failure is reported. */
  function MapRow(row: seq<Value>, codec: PeerCodec): Result<Contract> {
    if !Cell(row, 0).S? || !Cell(row, 1).S? then Err(InvalidSqlRow)
    else match codec.decode(Cell(row, 1).s)
      case None => Err(InvalidPeerId)
      case Some(peer) =>
        if !Cell(row, 2).S? then Err(InvalidSqlRow)
        else if !Cell(row, 3).S? then Err(InvalidSqlRow)
        else if !Cell(row, 4).N? then Err(InvalidSqlRow)
        else if !Cell(row, 5).N? then Err(InvalidSqlRow)
        else if !Cell(row, 6).Bs? then Err(InvalidSqlRow)
        else if !Cell(row, 7).Bs? then Err(InvalidSqlRow)
        else if !Cell(row, 8).N? then Err(InvalidSqlRow)
        else if !Cell(row, 9).N? then Err(InvalidSqlRow)
        else Ok(Contract(row[0].s, peer, row[2].s, row[3].s, row[4].n, row[5].n,
                         row[6].bytes, row[7].bytes, row[8].n, row[9].n))
  }

  /** Reading back a stored row gives the contract, whatever columns follow. */
  lemma RowRoundTrip(c: Contract, codec: PeerCodec, extra: seq<Value>)
    requires Faithful(codec)
    ensures MapRow(ToRow(c, codec) + extra, codec) == Ok(c)
  {
    assert codec.decode(codec.encode(c.peer)) == Some(c.peer);
  }

  /** A row decodes to a contract exactly when its first ten columns hold the contract's fields, in the
      order of the table. */
  lemma RowDecodesExactly(row: seq<Value>, codec: PeerCodec, c: Contract)
    ensures MapRow(row, codec) == Ok(c)
      <==> && |row| >= 10
           && row[0] == S(c.contractUuid) && row[1].S? && codec.decode(row[1].s) == Some(c.peer)
           && row[2] == S(c.fileUuid) && row[3] == S(c.fileHash) && row[4] == N(c.uploadDate) && row[5] == N(c.ttl)
           && row[6] == Bs(c.secretN) && row[7] == Bs(c.secretM) && row[8] == N(c.rows) && row[9] == N(c.cols)
  {
  }

  /** So it is the stored row of that contract and of no other. */
  lemma RowIsStored(row: seq<Value>, codec: PeerCodec, c: Contract)
    requires Faithful(codec) && Canonical(codec)
    ensures MapRow(row, codec) == Ok(c) <==> |row| >= 10 && row[..10] == ToRow(c, codec)
  {
    if |row| >= 10 && row[..10] == ToRow(c, codec) {
      assert row == ToRow(c, codec) + row[10..];
      RowRoundTrip(c, codec, row[10..]);
    }
    if MapRow(row, codec) == Ok(c) {
      assert |row| >= 10;
      assert row[..10] == ToRow(c, codec);
    }
  }

  /** A peer that does not parse is reported as such, whatever columns follow it; every other
      failure is an invalid row. */
  lemma RowFailsExactly(row: seq<Value>, codec: PeerCodec)
    ensures MapRow(row, codec) == Err(InvalidPeerId)
      <==> |row| >= 2 && row[0].S? && row[1].S? && codec.decode(row[1].s).None?
    ensures MapRow(row, codec) == Err(InvalidSqlRow)
      <==> |row| < 2 || !row[0].S? || !row[1].S?
           || (codec.decode(row[1].s).Some?
               && !(|row| >= 10 && row[2].S? && row[3].S? && row[4].N? && row[5].N?
                    && row[6].Bs? && row[7].Bs? && row[8].N? && row[9].N?))
  {
  }

  // ----- secrets in contracts -----

  /** `to_contract`: the secrets as bytes and the dimensions as signed integers. */
  function ToFields(config: ClientConfig): (seq<bv8>, seq<bv8>, I64, I64) {
    (U64ToBytes(config.secretN), U64ToBytes(config.secretM), WrapI64(config.rows), WrapI64(config.cols))
  }

  /** The contract written for a configuration. */
  function Sealed(config: ClientConfig, blank: Contract): Contract {
    var (secretN, secretM, rows, cols) := ToFields(config);
    blank.(secretN := secretN, secretM := secretM, rows := rows, cols := cols)
  }

  /** `from_contract` */
  function FromContract(c: Contract): ClientConfig {
    ClientConfig(ToUsize(c.rows), ToUsize(c.cols), BytesToU64(c.secretM), BytesToU64(c.secretN))
  }

  lemma DimensionRoundTrip(x: U64)
    ensures ToUsize(WrapI64(x)) == x
  {
  }

  lemma FieldsRoundTrip(config: ClientConfig, blank: Contract)
    requires config.rows < 0x1_0000_0000_0000_0000 && config.cols < 0x1_0000_0000_0000_0000
    ensures FromContract(Sealed(config, blank)) == config
    ensures var c := Sealed(config, blank);
      && BytesToU64(c.secretM) == config.secretM && BytesToU64(c.secretN) == config.secretN
      && ToUsize(c.rows) == config.rows && ToUsize(c.cols) == config.cols
  {
    DecodeEncode(config.secretM, []);
    DecodeEncode(config.secretN, []);
    assert U64ToBytes(config.secretM) + [] == U64ToBytes(config.secretM);
    assert U64ToBytes(config.secretN) + [] == U64ToBytes(config.secretN);
    DimensionRoundTrip(config.rows);
    DimensionRoundTrip(config.cols);
  }

  /** From tagging to auditing: the configuration survives the contract, the row and the ledger. */
  lemma SecretsSurviveTheLedger(config: ClientConfig, blank: Contract, codec: PeerCodec)
    requires Faithful(codec)
    requires config.rows < 0x1_0000_0000_0000_0000 && config.cols < 0x1_0000_0000_0000_0000
    ensures MapRow(ToRow(Sealed(config, blank), codec), codec) == Ok(Sealed(config, blank))
    ensures FromContract(MapRow(ToRow(Sealed(config, blank), codec), codec).value) == config
  {
    var c := Sealed(config, blank);
    RowRoundTrip(c, codec, []);
    assert ToRow(c, codec) + [] == ToRow(c, codec);
    FieldsRoundTrip(config, blank);
  }
}
