/**
 * The device size record the server reports: a rotation and a width and
 * height, each a Java int.
 */
module DeviceSize {
  /** A Java int. */
  type Int32 = x: int | -0x8000_0000 <= x < 0x8000_0000

  /** The server's Size value (Size.java is not part of this model). */
  datatype Size = Size(width: Int32, height: Int32)

  class SizeInfo {
    var rotation: Int32
    var width: Int32
    var height: Int32

    /** SizeInfo(): every field keeps its initial value 0. */
    constructor ()
      ensures rotation == 0 && width == 0 && height == 0
    {
      rotation, width, height := 0, 0, 0;
    }

    /** SizeInfo(rotation, size): the rotation and the size's dimensions. */
    constructor FromSize(rotation: Int32, size: Size)
      ensures this.rotation == rotation && width == size.width && height == size.height
    {
      this.rotation := rotation;
      width := size.width;
      height := size.height;
    }

    method GetRotation() returns (r: Int32)
      ensures r == rotation
    {
      r := rotation;
    }

    method SetRotation(rotation: Int32)
      modifies this
      ensures this.rotation == rotation
      ensures width == old(width) && height == old(height)
    {
      this.rotation := rotation;
    }

    method GetWidth() returns (r: Int32)
      ensures r == width
    {
      r := width;
    }

    method SetWidth(width: Int32)
      modifies this
      ensures this.width == width
      ensures rotation == old(rotation) && height == old(height)
    {
      this.width := width;
    }

    method GetHeight() returns (r: Int32)
      ensures r == height
    {
      r := height;
    }

    method SetHeight(height: Int32)
      modifies this
      ensures this.height == height
      ensures rotation == old(rotation) && width == old(width)
    {
      this.height := height;
    }
  }
}
