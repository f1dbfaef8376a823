/** `include/krft/bin_array.h`: a byte buffer with a cursor (`index`) and an end (`size`). */
module BinArray {
  import opened FixedPoint
  import opened Bytes

  /** C leaves a float whose scaled value does not fit the integer undefined. */
  predicate IsEncodable(x: real) {
    IsInt32(ToFixed(x))
  }

  class BinArr {
    const buf: array<Int8>
    var size: nat
    var index: nat

    /** `binarr_new`; the allocated bytes are not initialised. */
    constructor (capacity: nat)
      ensures fresh(buf) && buf.Length == capacity && size == 0 && index == 0
    {
      buf := new Int8[capacity];
      size, index := 0, 0;
    }

    /** What lies before the cursor. */
    ghost function Written(): seq<Int8>
      reads this, buf
      requires index <= buf.Length
    {
      buf[..index]
    }

    /** `binarr_write_i8` */
    method WriteI8(data: Int8)
      requires index < buf.Length
      modifies this`index, buf
      ensures index == old(index) + 1
      ensures buf[..] == old(buf[..])[old(index) := data]
      ensures Written() == old(Written()) + [data]
    {
      buf[index] := data;
      index := index + 1;
    }

    /** `binarr_append_i8` */
    method AppendI8(data: Int8)
      requires index < buf.Length
      modifies this, buf
      ensures size == index == old(index) + 1
      ensures Written() == old(Written()) + [data]
    {
      WriteI8(data);
      size := index;
    }

    /** `binarr_write_i32_n`: overwrites four bytes and touches nothing else. */
    method WriteI32N(data: Int32)
      requires index + 4 <= buf.Length
      modifies this`index, buf
      ensures index == old(index) + 4
      ensures buf[..] == old(buf[..index]) + EncodeI32(data) + old(buf[index + 4..])
      ensures Written() == old(Written()) + EncodeI32(data)
    {
      var bytes := EncodeI32(data);
      buf[index], buf[index + 1], buf[index + 2], buf[index + 3] := bytes[0], bytes[1], bytes[2], bytes[3];
      index := index + 4;
    }

    /** `binarr_append_i32_n` */
    method AppendI32N(data: Int32)
      requires index + 4 <= buf.Length
      modifies this, buf
      ensures size == index == old(index) + 4
      ensures Written() == old(Written()) + EncodeI32(data)
    {
      WriteI32N(data);
      size := index;
    }

    /** `binarr_append_float_n` */
    method AppendFloatN(data: real)
      requires index + 4 <= buf.Length && IsEncodable(data)
      modifies this, buf
      ensures size == index == old(index) + 4
      ensures Written() == old(Written()) + EncodeI32(ToFixed(data))
    {
      var idata := Trunc(data * 10000.0);
      AppendI32N(idata);
    }

    /** `binarr_read_i8` */
    method ReadI8() returns (data: Int8)
      requires index < buf.Length
      modifies this`index
      ensures index == old(index) + 1 && data == buf[old(index)]
    {
      data := buf[index];
      index := index + 1;
    }

    /** `binarr_read_i32_n` */
    method ReadI32N() returns (data: Int32)
      requires index + 4 <= buf.Length
      modifies this`index
      ensures index == old(index) + 4 && data == DecodeI32(buf[old(index)..old(index) + 4])
    {
      data := DecodeI32(buf[index..index + 4]);
      index := index + 4;
    }

    /** `binarr_read_float_n` */
    method ReadFloatN() returns (data: real)
      requires index + 4 <= buf.Length
      modifies this`index
      ensures index == old(index) + 4 && data == FromFixed(DecodeI32(buf[old(index)..old(index) + 4]))
    {
      var idata := ReadI32N();
      data := idata as real / 10000.0;
    }
  }
}
