/** The memory the components share, as one mutable object. */
module AddressSpace {
  import opened Common

  class AddressSpace {
    var bytes: Memory

    constructor (initial: Memory)
      ensures bytes == initial
    {
      bytes := initial;
    }

    method Read(address: word) returns (value: byte)
      ensures value == bytes[address]
    {
      value := bytes[address];
    }

    method Write(address: word, value: byte)
      modifies this
      ensures bytes == old(bytes)[address := value]
    {
      bytes := bytes[address := value];
    }
  }
}
