/** `SqttUserdata`: the dwords of one RGP marker, written through the thread-trace
    userdata registers. The first dword is a header: the marker identifier in bits
    [3:0], the number of dwords of the marker in bits [6:4] and the API type in bits
    [26:7]. A shift right by `n` followed by a mask of `k` ones is, on an unsigned
    word, division by 2^n followed by the remainder modulo 2^k. */
module Userdata {
  import opened Wrappers
  import opened BitArith

  /** Why `SqttUserdata::new` refuses a vector of dwords. */
  datatype UserdataError = Empty | LengthMismatch(actual: nat, declared: nat)

  /** A marker that `New` accepted. */
  datatype SqttUserdata = SqttUserdata(dw: seq<u32>)
  {
    /** `id()`: `dw[0] & 0xF`. */
    function Id(): (id: nat)
      requires |dw| > 0
      ensures id < 0x10
    {
      dw[0] % 0x10
    }

    /** `api_type()`: `(dw[0] >> 7) & 0xFFFFF`. */
    function ApiType(): (t: nat)
      requires |dw| > 0
      ensures t < 0x10_0000
    {
      (dw[0] / 0x80) % 0x10_0000
    }
  }

  /** `len(dw0)`: `(dw0 >> 4) & 0x7`, the number of dwords the header declares. */
  function Len(dw0: u32): (n: nat)
    ensures n <= 7
  {
    (dw0 / 0x10) % 0x8
  }

  /** `SqttUserdata::new(dw)`: refuses an empty vector, then one whose length is not the
      length its header declares; an accepted vector is kept as it is. */
  function New(dw: seq<u32>): (r: Result<SqttUserdata, UserdataError>)
    ensures r.Success? <==> |dw| > 0 && Len(dw[0]) == |dw|
    ensures r.Success? ==> r.value.dw == dw
    ensures |dw| == 0 ==> r == Failure(Empty)
    ensures r.Failure? && |dw| > 0 ==> r.error == LengthMismatch(|dw|, Len(dw[0]))
  {
    if |dw| == 0 then Failure(Empty)
    else if Len(dw[0]) != |dw| then Failure(LengthMismatch(|dw|, Len(dw[0])))
    else Success(SqttUserdata(dw))
  }

  /** An accepted marker has one to seven dwords: a header declaring no dwords is never
      accepted. */
  lemma AcceptedLength(dw: seq<u32>)
    requires New(dw).Success?
    ensures 1 <= Len(dw[0]) == |dw| <= 7
  {
  }

  /** The header with identifier `id`, length `len` and API type `apiType`. */
  function Header(id: nat, len: nat, apiType: nat): (w: u32)
    requires id < 0x10 && len < 0x8 && apiType < 0x10_0000
    ensures w < 0x800_0000
  {
    id + 0x10 * len + 0x80 * apiType
  }

  /** The field accessors read back what `Header` packs. */
  lemma {:induction false} HeaderFields(id: nat, len: nat, apiType: nat)
    requires id < 0x10 && len < 0x8 && apiType < 0x10_0000
    ensures var w := Header(id, len, apiType);
      SqttUserdata([w]).Id() == id && Len(w) == len && SqttUserdata([w]).ApiType() == apiType
  {
    var w := Header(id, len, apiType);
    DivModUnique(w, 0x10, len + 0x8 * apiType, id);
    DivModUnique(len + 0x8 * apiType, 0x8, apiType, len);
    DivModUnique(w, 0x80, apiType, id + 0x10 * len);
    DivModUnique(apiType, 0x10_0000, 0, apiType);
  }

  /** The three fields make up the low 27 bits of a header, so a header is determined by
      its fields and its bits above 26. */
  lemma {:induction false} FieldsDecompose(w: u32)
    ensures var u := SqttUserdata([w]);
      w % 0x800_0000 == Header(u.Id(), Len(w), u.ApiType())
      && w == Header(u.Id(), Len(w), u.ApiType()) + 0x800_0000 * (w / 0x800_0000)
  {
    var u := SqttUserdata([w]);
    DivDiv(w, 0x10, 0x8);
    DivDiv(w, 0x80, 0x10_0000);
    assert w == 0x10 * (w / 0x10) + w % 0x10;
    assert w / 0x10 == 0x8 * (w / 0x80) + Len(w);
    assert w / 0x80 == 0x10_0000 * (w / 0x800_0000) + u.ApiType();
    assert w == Header(u.Id(), Len(w), u.ApiType()) + 0x800_0000 * (w / 0x800_0000);
    DivModUnique(w, 0x800_0000, w / 0x800_0000, Header(u.Id(), Len(w), u.ApiType()));
  }
}
