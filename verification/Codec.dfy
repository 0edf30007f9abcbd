/** How a transfer is written into the columns of a database row and read back. */
module Codec {
  import opened Types
  import opened TimeLock
  import opened Decimal

  type Byte = b: int | 0 <= b < 256

  /** Fixed-width values: 32-byte hashes and 20-byte addresses. */
  type Hash = h: seq<Byte> | |h| == 32 witness seq(32, _ => 0)
  type Address = a: seq<Byte> | |a| == 20 witness seq(20, _ => 0)

  const NO_HASH: Hash := seq(32, _ => 0)

  // ----- hexadecimal text -----

  function Lower(d: nat): (ch: char)
    requires d < 16
  {
    if d < 10 then ('0' as int + d) as char else ('a' as int + d - 10) as char
  }

  function Upper(d: nat): (ch: char)
    requires d < 16
  {
    if d < 10 then ('0' as int + d) as char else ('A' as int + d - 10) as char
  }

  function HexValue(ch: char): (d: Option<nat>)
    ensures d.Some? ==> d.value < 16
  {
    if '0' <= ch <= '9' then Some(ch as int - '0' as int)
    else if 'a' <= ch <= 'f' then Some(ch as int - 'a' as int + 10)
    else if 'A' <= ch <= 'F' then Some(ch as int - 'A' as int + 10)
    else None
  }

  /** Text of bytes, with letter case chosen per digit: what lower-case and checksummed printing have in common. */
  function Hex(b: seq<Byte>, upper: nat -> bool): string {
    if b == [] then ""
    else
      var last := |b| - 1;
      Hex(b[..last], upper) + PairText(b[last], upper(2 * last), upper(2 * last + 1))
  }

  function Digit(d: nat, upper: bool): char
    requires d < 16
  {
    if upper then Upper(d) else Lower(d)
  }

  function PairText(d: Byte, high: bool, low: bool): string {
    [Digit(d / 16, high), Digit(d % 16, low)]
  }

  function Bytes2Hex(b: seq<Byte>): string {
    Hex(b, _ => false)
  }

  /** hex.DecodeString with its error ignored: the bytes before the first bad pair. */
  function Decoded(s: string): seq<Byte> {
    if |s| < 2 || HexValue(s[0]).None? || HexValue(s[1]).None? then []
    else [HexValue(s[0]).value * 16 + HexValue(s[1]).value] + Decoded(s[2..])
  }

  predicate Prefixed(s: string) {
    |s| >= 2 && s[0] == '0' && (s[1] == 'x' || s[1] == 'X')
  }

  /** The digits `Hex2Bytes` decodes: without the prefix, padded to an even number. */
  function Digits(s: string): string {
    var t := if Prefixed(s) then s[2..] else s;
    if |t| % 2 == 1 then "0" + t else t
  }

  method Hex2Bytes(text: string) returns (b: seq<Byte>)
    ensures b == Decoded(Digits(text))
  {
    var s := text;
    if |s| >= 2 && s[0] == '0' && (s[1] == 'x' || s[1] == 'X') {
      s := s[2..];
    }
    if |s| % 2 == 1 {
      s := "0" + s;
    }
    b := DecodeString(s);
  }

  method DecodeString(s: string) returns (b: seq<Byte>)
    ensures b == Decoded(s)
  {
    b := [];
    var i := 0;
    while i + 1 < |s|
      invariant 0 <= i <= |s|
      invariant Decoded(s) == b + Decoded(s[i..])
    {
      var high, low := HexValue(s[i]), HexValue(s[i + 1]);
      assert s[i..][2..] == s[i + 2..];
      if high.None? || low.None? {
        return;
      }
      b := b + [high.value * 16 + low.value];
      i := i + 2;
    }
  }

  lemma {:induction false} HexShape(b: seq<Byte>, upper: nat -> bool)
    ensures |Hex(b, upper)| == 2 * |b|
    ensures forall ch :: ch in Hex(b, upper) ==> HexValue(ch).Some?
  {
    if b != [] {
      HexShape(b[..|b| - 1], upper);
    }
  }

  lemma {:induction false} DecodedConcat(s: string, t: string)
    requires |s| % 2 == 0 && forall ch :: ch in s ==> HexValue(ch).Some?
    ensures Decoded(s + t) == Decoded(s) + Decoded(t)
    decreases |s|
  {
    if s == [] {
      assert s + t == t;
    } else {
      DecodedConcat(s[2..], t);
      assert s[0] in s && s[1] in s;
      hide HexValue;
      var first := HexValue(s[0]).value * 16 + HexValue(s[1]).value;
      assert (s + t)[2..] == s[2..] + t;
      assert [first] + (Decoded(s[2..]) + Decoded(t)) == ([first] + Decoded(s[2..])) + Decoded(t);
    }
  }

  lemma DecodedPair(d: Byte, high: bool, low: bool)
    ensures Decoded(PairText(d, high, low)) == [d]
  {
    var s := PairText(d, high, low);
    assert s[2..] == [] && Decoded(s[2..]) == [];
  }

  lemma HexStep(front: seq<Byte>, d: Byte, upper: nat -> bool)
    ensures Hex(front + [d], upper) ==
            Hex(front, upper) + PairText(d, upper(2 * |front|), upper(2 * |front| + 1))
  {
    hide PairText, Hex;
    var b := front + [d];
    HexUnfolds(b, |front|, upper);
    assert b[..|front|] == front && b[|front|] == d;
  }

  lemma HexUnfolds(b: seq<Byte>, last: nat, upper: nat -> bool)
    requires |b| == last + 1
    ensures Hex(b, upper) == Hex(b[..last], upper) + PairText(b[last], upper(2 * last), upper(2 * last + 1))
  {
    hide PairText;
  }

  /** Decoding undoes printing, in whatever mixture of upper and lower case. */
  lemma {:induction false} HexIsUndone(b: seq<Byte>, upper: nat -> bool)
    ensures Decoded(Hex(b, upper)) == b
  {
    if b != [] {
      hide Decoded, Hex, PairText, HexValue;
      var front, d := b[..|b| - 1], b[|b| - 1];
      var high, low := upper(2 * |front|), upper(2 * |front| + 1);
      assert b == front + [d];
      HexIsUndone(front, upper);
      HexShape(front, upper);
      HexStep(front, d, upper);
      DecodedConcat(Hex(front, upper), PairText(d, high, low));
      DecodedPair(d, high, low);
    }
  }

  lemma DigitsOfHex(s: string)
    requires |s| % 2 == 0 && forall ch :: ch in s ==> HexValue(ch).Some?
    ensures Digits("0x" + s) == s && Digits("0X" + s) == s && Digits(s) == s
  {
    assert ("0x" + s)[2..] == s && ("0X" + s)[2..] == s;
    assert |s| >= 2 ==> s[1] in s;
  }

  /** With or without the 0x prefix, text of bytes gives the bytes back. */
  lemma Hex2BytesUndoesHex(b: seq<Byte>, upper: nat -> bool)
    ensures Decoded(Digits("0x" + Hex(b, upper))) == b
    ensures Decoded(Digits("0X" + Hex(b, upper))) == b
    ensures Decoded(Digits(Hex(b, upper))) == b
  {
    hide Decoded, Digits, Hex, HexValue;
    HexShape(b, upper);
    HexIsUndone(b, upper);
    DigitsOfHex(Hex(b, upper));
  }

  /** common.BytesToHash and BytesToAddress: crop from the left, or pad on the left. */
  function Fit(b: seq<Byte>, n: nat): (r: seq<Byte>)
    ensures |r| == n
  {
    if |b| > n then b[|b| - n..] else seq(n - |b|, _ => 0) + b
  }

  function Hex2Hash(s: string): Hash {
    Fit(Decoded(Digits(s)), 32)
  }

  function Hex2Addr(s: string): Address {
    Fit(Decoded(Digits(s)), 20)
  }

  // ----- any hexadecimal text, as a number -----

  function HexNumber(s: string, acc: nat): nat
    requires forall ch :: ch in s ==> HexValue(ch).Some?
  {
    if s == [] then acc
    else
      assert s[0] in s;
      HexNumber(s[1..], acc * 16 + HexValue(s[0]).value)
  }

  function BytesNumber(b: seq<Byte>, acc: nat): nat {
    if b == [] then acc else BytesNumber(b[1..], acc * 256 + b[0])
  }

  /** Decoding an even number of digits keeps the number they stand for. */
  lemma {:induction false} DecodedNumber(s: string, acc: nat)
    requires |s| % 2 == 0 && forall ch :: ch in s ==> HexValue(ch).Some?
    ensures BytesNumber(Decoded(s), acc) == HexNumber(s, acc)
    decreases |s|
  {
    if s != [] {
      assert s[0] in s && s[1] in s;
      hide HexValue;
      var high, low := HexValue(s[0]).value, HexValue(s[1]).value;
      assert s[1..][1..] == s[2..] && s[1..][0] == s[1];
      DecodedNumber(s[2..], acc * 256 + (high * 16 + low));
      assert Decoded(s) == [high * 16 + low] + Decoded(s[2..]);
      assert Decoded(s)[1..] == Decoded(s[2..]);
      assert (acc * 16 + high) * 16 + low == acc * 256 + (high * 16 + low);
    }
  }

  /** Any digits, an odd number of them too, with or without the prefix, give the bytes of the number they stand for. */
  lemma Hex2BytesReadsNumber(s: string)
    requires forall ch :: ch in s ==> HexValue(ch).Some?
    ensures BytesNumber(Decoded(Digits(s)), 0) == HexNumber(s, 0)
    ensures BytesNumber(Decoded(Digits("0x" + s)), 0) == HexNumber(s, 0)
    ensures |Decoded(Digits(s))| == (|s| + 1) / 2
  {
    hide Decoded, Digits, HexNumber, BytesNumber, HexValue;
    EvenDigits(s);
    LeadingZero(s);
    DecodedNumber(Digits(s), 0);
    DecodedLength(Digits(s));
  }

  lemma EvenDigits(s: string)
    requires forall ch :: ch in s ==> HexValue(ch).Some?
    ensures Digits(s) == (if |s| % 2 == 1 then "0" + s else s) && Digits("0x" + s) == Digits(s)
    ensures |Digits(s)| == (|s| + 1) / 2 * 2 && forall ch :: ch in Digits(s) ==> HexValue(ch).Some?
  {
    assert ("0x" + s)[2..] == s && (|s| >= 2 ==> s[1] in s);
    assert HexValue('0').Some?;
  }

  lemma LeadingZero(s: string)
    requires forall ch :: ch in s ==> HexValue(ch).Some?
    ensures (forall ch :: ch in "0" + s ==> HexValue(ch).Some?) && HexNumber("0" + s, 0) == HexNumber(s, 0)
  {
    assert ("0" + s)[1..] == s && HexValue('0') == Some(0);
  }

  lemma {:induction false} DecodedLength(s: string)
    requires |s| % 2 == 0 && forall ch :: ch in s ==> HexValue(ch).Some?
    ensures |Decoded(s)| == |s| / 2
    decreases |s|
  {
    if s != [] {
      assert s[0] in s && s[1] in s;
      DecodedLength(s[2..]);
    }
  }

  /** What follows the first pair that is not two digits is ignored. */
  lemma DecodingStops(s: string, t: string)
    requires |s| % 2 == 0 && forall ch :: ch in s ==> HexValue(ch).Some?
    requires |t| >= 2 && (HexValue(t[0]).None? || HexValue(t[1]).None?)
    ensures Decoded(s + t) == Decoded(s)
  {
    DecodedConcat(s, t);
  }

  function Pow256(n: nat): (p: nat)
    ensures p >= 1
  {
    if n == 0 then 1 else 256 * Pow256(n - 1)
  }

  lemma {:induction false} NumberConcat(a: seq<Byte>, b: seq<Byte>, acc: nat)
    ensures BytesNumber(a + b, acc) == BytesNumber(b, BytesNumber(a, acc))
    decreases |a|
  {
    if a == [] {
      assert a + b == b;
    } else {
      assert (a + b)[1..] == a[1..] + b;
      NumberConcat(a[1..], b, acc * 256 + a[0]);
    }
  }

  /** The leading part weighs 256 to the length of the rest, and the rest is smaller than that. */
  lemma {:induction false} NumberSplits(b: seq<Byte>, acc: nat)
    ensures BytesNumber(b, acc) == acc * Pow256(|b|) + BytesNumber(b, 0)
    ensures BytesNumber(b, 0) < Pow256(|b|)
    decreases |b|
  {
    if b != [] {
      NumberSplits(b[1..], acc * 256 + b[0]);
      NumberSplits(b[1..], b[0]);
      Weighs(acc, b[0], Pow256(|b| - 1));
      Below(b[0], BytesNumber(b[1..], 0), Pow256(|b| - 1));
    }
  }

  lemma Weighs(acc: nat, d: Byte, p: nat)
    ensures (acc * 256 + d) * p == acc * (256 * p) + d * p
  {
  }

  lemma Below(d: Byte, rest: nat, p: nat)
    requires rest < p
    ensures d * p + rest < 256 * p
  {
    assert d * p <= 255 * p;
  }

  lemma {:induction false} ZerosAreNothing(n: nat)
    ensures BytesNumber(seq(n, _ => 0), 0) == 0
  {
    if n > 0 {
      assert seq(n, _ => 0)[1..] == seq(n - 1, _ => 0);
      ZerosAreNothing(n - 1);
    }
  }

  /**
   * Padding keeps the number, and cropping keeps its low bytes: what is left is the remainder of dividing by 256 to the
   * width.
   */
  lemma FitIsRemainder(b: seq<Byte>, n: nat) returns (quotient: nat)
    ensures BytesNumber(b, 0) == quotient * Pow256(n) + BytesNumber(Fit(b, n), 0)
    ensures BytesNumber(Fit(b, n), 0) < Pow256(n)
    ensures |b| <= n ==> quotient == 0
  {
    quotient := 0;
    if |b| > n {
      var high, low := b[..|b| - n], b[|b| - n..];
      assert b == high + low;
      NumberConcat(high, low, 0);
      quotient := BytesNumber(high, 0);
      NumberSplits(low, quotient);
    } else {
      NumberConcat(seq(n - |b|, _ => 0), b, 0);
      ZerosAreNothing(n - |b|);
      NumberSplits(b, 0);
      PowMono(|b|, n);
    }
  }

  lemma {:induction false} PowMono(a: nat, b: nat)
    requires a <= b
    ensures Pow256(a) <= Pow256(b)
    decreases b
  {
    if a < b {
      PowMono(a, b - 1);
    }
  }

  /** common.Hash.String. */
  function HashText(h: Hash): string {
    "0x" + Bytes2Hex(h)
  }

  /** common.Address.String: the case of each letter comes from a checksum of the address. */
  function AddrText(a: Address, checksum: Address -> nat -> bool): string {
    "0x" + Hex(a, checksum(a))
  }

  lemma HashIsRestored(h: Hash)
    ensures Hex2Hash(HashText(h)) == h && HashText(h) != ""
  {
    Hex2BytesUndoesHex(h, _ => false);
    assert seq(0, _ => 0) + h == h;
  }

  lemma AddrIsRestored(a: Address, checksum: Address -> nat -> bool)
    ensures Hex2Addr(AddrText(a, checksum)) == a
  {
    Hex2BytesUndoesHex(a, checksum(a));
    assert seq(0, _ => 0) + a == a;
  }

  /** Comparing id columns as text, as every WHERE clause does, compares the ids. */
  lemma TextIdentifies(g: Hash, h: Hash)
    ensures HashText(g) == HashText(h) <==> g == h
  {
    HashIsRestored(g);
    HashIsRestored(h);
  }

  /** No preimage yet: the column is empty, is not the text of any hash, and reads back as the zero hash. */
  lemma EmptyPreimage(h: Hash)
    ensures Hex2Hash("") == NO_HASH && HashText(h) != ""
  {
    HashIsRestored(h);
    assert Digits("") == "" && Decoded("") == [];
    assert Hex2Hash("") == seq(32, _ => 0) + [];
  }

  // ----- the row -----

  /** The columns of `transfer`, as the driver hands them over: text, integers and timestamps, some of them NULL. */
  datatype Columns = Columns(
    tid: string, txHash: string, chainId: int, token: string, transferType: int, timeLock: Time, hashLock: string,
    status: int, relatedTid: string, relatedChainId: int, relatedToken: string, amount: string, fee: string,
    transferGasCost: Option<string>, confirmGasCost: Option<string>, refundGasCost: Option<string>,
    preimage: Option<string>, senderAddr: string, receiverAddr: string, txConfirmHash: string, txRefundHash: string,
    updateTs: Time, createTs: Time)
  {
    /** A NULL cannot be scanned into a string, nor a negative number into an unsigned field. */
    predicate Scannable() {
      && chainId >= 0 && relatedChainId >= 0
      && transferGasCost.Some? && confirmGasCost.Some? && refundGasCost.Some? && preimage.Some?
    }
  }

  /** The record that inserts read and scans fill in. */
  datatype Transfer = Transfer(
    transferId: Hash, txHash: Hash, chainId: nat, token: Address, transferType: int, timeLock: Time, hashLock: Hash,
    status: int, relatedTid: Hash, relatedChainId: nat, relatedToken: Address, amount: int, fee: int,
    transferGasCost: int, confirmGasCost: int, refundGasCost: int, preimage: Hash, sender: Address,
    receiver: Address, txConfirmHash: Hash, txRefundHash: Hash, updateTs: Time, createTs: Time)

  /**
   * What InsertTransfer stores at `now`: always an empty preimage and its own clock. None where the driver refuses an
   * unsigned value that does not fit a signed column. Timestamps are kept to the microsecond.
   */
  function Stored(tx: Transfer, now: Time, checksum: Address -> nat -> bool): Option<Columns> {
    if tx.chainId >= TWO63 || tx.relatedChainId >= TWO63 then None
    else Some(Columns(
      HashText(tx.transferId), HashText(tx.txHash), tx.chainId, AddrText(tx.token, checksum), tx.transferType,
      RoundMicro(tx.timeLock), HashText(tx.hashLock), tx.status, HashText(tx.relatedTid), tx.relatedChainId,
      AddrText(tx.relatedToken, checksum), PrintInt(tx.amount), PrintInt(tx.fee), Some(PrintInt(tx.transferGasCost)),
      Some(PrintInt(tx.confirmGasCost)), Some(PrintInt(tx.refundGasCost)), Some(""), AddrText(tx.sender, checksum),
      AddrText(tx.receiver, checksum), HashText(tx.txConfirmHash), HashText(tx.txRefundHash),
      RoundMicro(now), RoundMicro(now)))
  }

  /** big.Int.SetString with its error ignored: where the text does not parse the value is undefined. */
  ghost predicate Reads(text: string, v: int) {
    ParseInt(text).Some? ==> v == ParseInt(text).value
  }

  method SetString(text: string) returns (v: int)
    ensures Reads(text, v)
  {
    var parsed := ParseInt(text);
    v := *;
    if parsed.Some? {
      v := parsed.value;
    }
  }

  method HashOf(text: string) returns (h: Hash)
    ensures h == Hex2Hash(text)
  {
    var b := Hex2Bytes(text);
    h := Fit(b, 32);
  }

  method AddressOf(text: string) returns (a: Address)
    ensures a == Hex2Addr(text)
  {
    var b := Hex2Bytes(text);
    a := Fit(b, 20);
  }

  ghost predicate ScannedIds(tx: Transfer, r: Columns)
    requires r.Scannable()
  {
    && tx.transferId == Hex2Hash(r.tid) && tx.txHash == Hex2Hash(r.txHash) && tx.token == Hex2Addr(r.token)
    && tx.relatedToken == Hex2Addr(r.relatedToken) && tx.hashLock == Hex2Hash(r.hashLock)
    && tx.relatedTid == Hex2Hash(r.relatedTid) && tx.preimage == Hex2Hash(r.preimage.value)
    && tx.sender == Hex2Addr(r.senderAddr) && tx.receiver == Hex2Addr(r.receiverAddr)
    && tx.txConfirmHash == Hex2Hash(r.txConfirmHash) && tx.txRefundHash == Hex2Hash(r.txRefundHash)
  }

  ghost predicate ScannedAmounts(tx: Transfer, r: Columns)
    requires r.Scannable()
  {
    && Reads(r.amount, tx.amount) && Reads(r.fee, tx.fee)
    && Reads(r.transferGasCost.value, tx.transferGasCost) && Reads(r.confirmGasCost.value, tx.confirmGasCost)
    && Reads(r.refundGasCost.value, tx.refundGasCost)
  }

  ghost predicate ScannedPlain(tx: Transfer, r: Columns) {
    && tx.chainId == r.chainId && tx.relatedChainId == r.relatedChainId
    && tx.transferType == r.transferType && tx.status == r.status
    && tx.timeLock == r.timeLock && tx.updateTs == r.updateTs && tx.createTs == r.createTs
  }

  /** `tx` is what a scan of `r` leaves. */
  ghost predicate Scanned(tx: Transfer, r: Columns) {
    r.Scannable() && ScannedPlain(tx, r) && ScannedIds(tx, r) && ScannedAmounts(tx, r)
  }

  /** Fills the record column by column, or fails and leaves it as it was. */
  method ScanTransfer(r: Columns, blank: Transfer) returns (tx: Transfer, ok: bool)
    ensures ok == r.Scannable()
    ensures if ok then Scanned(tx, r) else tx == blank
  {
    hide Hex2Hash, Hex2Addr, Reads;
    tx := blank;
    if !r.Scannable() {
      return tx, false;
    }
    tx := tx.(chainId := r.chainId, transferType := r.transferType, timeLock := r.timeLock, status := r.status,
              relatedChainId := r.relatedChainId, updateTs := r.updateTs, createTs := r.createTs);
    tx := ScanIds(r, tx);
    tx := ScanAmounts(r, tx);
    ok := true;
  }

  method ScanIds(r: Columns, was: Transfer) returns (tx: Transfer)
    requires r.Scannable() && ScannedPlain(was, r)
    ensures ScannedPlain(tx, r) && ScannedIds(tx, r)
  {
    hide Hex2Hash, Hex2Addr;
    var transferId := HashOf(r.tid);
    var txHash := HashOf(r.txHash);
    var token := AddressOf(r.token);
    var relatedToken := AddressOf(r.relatedToken);
    var hashLock := HashOf(r.hashLock);
    var relatedTid := HashOf(r.relatedTid);
    var preimage := HashOf(r.preimage.value);
    var sender := AddressOf(r.senderAddr);
    var receiver := AddressOf(r.receiverAddr);
    var txConfirmHash := HashOf(r.txConfirmHash);
    var txRefundHash := HashOf(r.txRefundHash);
    tx := was.(transferId := transferId, txHash := txHash, token := token, relatedToken := relatedToken,
               hashLock := hashLock, relatedTid := relatedTid, preimage := preimage, sender := sender,
               receiver := receiver, txConfirmHash := txConfirmHash, txRefundHash := txRefundHash);
  }

  method ScanAmounts(r: Columns, was: Transfer) returns (tx: Transfer)
    requires r.Scannable() && ScannedPlain(was, r) && ScannedIds(was, r)
    ensures Scanned(tx, r)
  {
    hide Hex2Hash, Hex2Addr, Reads;
    var amount := SetString(r.amount);
    var fee := SetString(r.fee);
    var transferGasCost := SetString(r.transferGasCost.value);
    var confirmGasCost := SetString(r.confirmGasCost.value);
    var refundGasCost := SetString(r.refundGasCost.value);
    tx := was.(amount := amount, fee := fee, transferGasCost := transferGasCost, confirmGasCost := confirmGasCost,
               refundGasCost := refundGasCost);
  }

  /**
   * Reading back what was inserted restores the record, whatever the address checksum: all but the preimage, which is
   * zero, and the times, which are the statement's own and rounded to the microsecond.
   */
  lemma ScanRestoresInsert(tx: Transfer, got: Transfer, now: Time, checksum: Address -> nat -> bool)
    requires Stored(tx, now, checksum).Some? && Scanned(got, Stored(tx, now, checksum).value)
    ensures got == tx.(preimage := NO_HASH, timeLock := RoundMicro(tx.timeLock),
                       updateTs := RoundMicro(now), createTs := RoundMicro(now))
  {
    hide Hex2Hash, HashText, Hex2Addr, AddrText, ParseInt, PrintInt, RoundMicro;
    HashIsRestored(tx.transferId);
    HashIsRestored(tx.txHash);
    HashIsRestored(tx.hashLock);
    HashIsRestored(tx.relatedTid);
    HashIsRestored(tx.txConfirmHash);
    HashIsRestored(tx.txRefundHash);
    EmptyPreimage(NO_HASH);
    AddrIsRestored(tx.token, checksum);
    AddrIsRestored(tx.relatedToken, checksum);
    AddrIsRestored(tx.sender, checksum);
    AddrIsRestored(tx.receiver, checksum);
    PrintedInt(tx.amount);
    PrintedInt(tx.fee);
    PrintedInt(tx.transferGasCost);
    PrintedInt(tx.confirmGasCost);
    PrintedInt(tx.refundGasCost);
  }

  /** Exactly the records with a zero preimage and whole-microsecond times, inserted at their own time, come back. */
  lemma RestoredExactly(tx: Transfer, got: Transfer, now: Time, checksum: Address -> nat -> bool)
    requires Stored(tx, now, checksum).Some? && Scanned(got, Stored(tx, now, checksum).value)
    ensures got.timeLock == tx.timeLock <==> tx.timeLock % 1000 == 0
    ensures got.preimage == tx.preimage <==> tx.preimage == NO_HASH
    ensures got == tx <==> tx.preimage == NO_HASH && tx.timeLock % 1000 == 0 &&
                           tx.updateTs == tx.createTs == RoundMicro(now)
  {
    hide Scanned, Stored;
    ScanRestoresInsert(tx, got, now, checksum);
  }
}
