/** The elements of the standard metadata preamble. */
module Format {
  import opened Xml

  function UIntRead(v: string, bits: string): Element {
    New("read").AddAttribute("var", v).AddAttribute("bits", bits).AddAttribute("type", "uint")
        .AddAttribute("endian", "big")
  }

  function PayloadRead(): Element {
    New("read").AddAttribute("var", "payload").AddAttribute("octets", "{$size - 20}")
    .AddAttribute("type", "raw").AddAttribute("group", "{$group}")
  }

  function CheckedRead(v: string, value: string): Element {
    UIntRead(v, "32").AddAttribute("value", value)
  }

  function StreamReads(): seq<Element> {
    [UIntRead("size", "32"), UIntRead("group", "32"), CheckedRead("magic", "0x51EDA7A0"),
     PayloadRead(), UIntRead("checksum", "32"), CheckedRead("size2", "{$size}")]
  }

  function IndexReads(): seq<Element> {
    [UIntRead("v0", "64"), UIntRead("v1", "32"), New("sample")]
  }

  function LoopDecoder(id: string, body: seq<Element>): Element {
    New("decoder").AddAttribute("id", id).AddChild(New("loop").(children := body))
  }

  /** Decoder 0: reads the file as a stream of blocks. */
  function StreamDecoderElement(): Element {
    LoopDecoder("0", StreamReads())
  }

  /** Decoder 1: reads the entries of an index block. */
  function IndexDecoderElement(): Element {
    LoopDecoder("1", IndexReads())
  }

  /** Marks group 0 as the XML metadata. */
  function MetadataTag(): Element {
    New("tag").AddAttribute("id", "sie:xml_metadata").AddAttribute("group", "0").AddAttribute("format", "text/xml")
  }

  /** Marks group 1 as the block index, in the form decoder 1 reads. */
  function IndexTag(): Element {
    New("tag").AddAttribute("id", "SIE:BlockIndex").AddAttribute("group", "1").AddAttribute("decoder", "1")
  }
}
