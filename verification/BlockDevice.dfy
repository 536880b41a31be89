/** The disk: a sequence of fixed-size blocks with atomic block transfers.

    A block is viewed as the array of 32-bit words it holds, which is how the
    log reads its header block. */
module BlockDevice {

  const BLOCK_WORDS: nat := 128 // BSIZE / sizeof(uint)

  type Block = b: seq<int> | |b| == BLOCK_WORDS witness seq(BLOCK_WORDS, _ => 0)

  type Image = seq<Block>

  /** The fake IDE disk. `history` records the image after every completed
      block write: those are the states in which a crash can leave the disk. */
  class Disk {
    var image: Image
    ghost var history: seq<Image>

    constructor (blocks: Image)
      ensures image == blocks && history == []
    {
      image := blocks;
      history := [];
    }

    method Read(b: int) returns (data: Block)
      requires 0 <= b < |image|
      ensures data == image[b]
    {
      data := image[b];
    }

    method Write(b: int, data: Block)
      requires 0 <= b < |image|
      modifies this
      ensures image == old(image)[b := data]
      ensures history == old(history) + [image]
    {
      image := image[b := data];
      history := history + [image];
    }
  }
}
