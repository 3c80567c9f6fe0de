/** The basic entity of the portfolio: an identifier, a category and a floor area,
    each of them mutable in place through its own setter. */
module Properties {

  /** Java's 32-bit `int`, the type of property identifiers. */
  newtype Int32 = x: int | -0x8000_0000 <= x < 0x8000_0000

  class Property {
    var id: Int32
    /** The property's type or category ("Studio", "House", ...). */
    var kind: string
    /** Floor area in square metres. */
    var size: real

    constructor (id: Int32, kind: string, size: real)
      ensures this.id == id && this.kind == kind && this.size == size
    {
      this.id := id;
      this.kind := kind;
      this.size := size;
    }

    method SetId(id: Int32)
      modifies this`id
      ensures this.id == id
      ensures kind == old(kind) && size == old(size)
    {
      this.id := id;
    }

    method SetKind(kind: string)
      modifies this`kind
      ensures this.kind == kind
      ensures id == old(id) && size == old(size)
    {
      this.kind := kind;
    }

    method SetSize(size: real)
      modifies this`size
      ensures this.size == size
      ensures id == old(id) && kind == old(kind)
    {
      this.size := size;
    }
  }
}
