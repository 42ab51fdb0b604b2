/** Reading a recording back from the bytes of the file alone: parse the blocks, read the metadata,
    look up a group's channel and decoder, and run that decoder on the group's blocks. */
module Reader {
  import opened Bytes
  import opened BlockLayer
  import opened Xml
  import opened XmlReader
  import opened Decimal
  import opened Decoders
  import opened SieXml
  import opened StreamDecoder

  /** The blocks of one group, in file order. */
  function Select(blocks: seq<Block>, group: nat): seq<Block> {
    if blocks == [] then []
    else (if blocks[0].group == group then [blocks[0]] else []) + Select(blocks[1..], group)
  }

  function Payloads(blocks: seq<Block>): seq<seq<Byte>> {
    if blocks == [] then [] else [blocks[0].payload] + Payloads(blocks[1..])
  }

  /** The metadata stream: the payloads of group 0 one after the other. */
  function MetadataText(blocks: seq<Block>): string {
    ToText(Flat(Payloads(Select(blocks, METADATA))))
  }

  /** The elements of the metadata stream. */
  function ReadMetadata(blocks: seq<Block>): Option<seq<Element>> {
    ReadDocument(MetadataText(blocks))
  }

  function FindDecoder(es: seq<Element>, id: string): Option<Element> {
    if es == [] then None
    else if es[0].name == "decoder" && AttributeOf(es[0].attributes, "id") == Some(id) then Some(es[0])
    else FindDecoder(es[1..], id)
  }

  function ChannelIn(es: seq<Element>, group: string): Option<Element> {
    if es == [] then None
    else if es[0].name == "ch" && AttributeOf(es[0].attributes, "group") == Some(group) then Some(es[0])
    else ChannelIn(es[1..], group)
  }

  /** The test element that holds the channel of a group. */
  function FindTest(es: seq<Element>, group: string): Option<Element> {
    if es == [] then None
    else if es[0].name == "test" && ChannelIn(es[0].children, group).Some? then Some(es[0])
    else FindTest(es[1..], group)
  }

  function FindChannel(es: seq<Element>, group: string): Option<Element> {
    var test := FindTest(es, group);
    if test.None? then None else ChannelIn(test.value.children, group)
  }

  function FirstNamed(es: seq<Element>, name: string): Option<Element> {
    if es == [] then None else if es[0].name == name then Some(es[0]) else FirstNamed(es[1..], name)
  }

  /** The decoder and the variable a dimension takes its values from. */
  datatype Source = Source(decoder: string, variable: string)

  function SourceOf(dim: Element): Option<Source> {
    var data := FirstNamed(dim.children, "data");
    if data.None? then None
    else
      var decoder, v := AttributeOf(data.value.attributes, "decoder"), AttributeOf(data.value.attributes, "v");
      if decoder.None? || v.None? then None else Some(Source(decoder.value, "v" + v.value))
  }

  /** The sources of the dimensions among the children of a channel. */
  function Sources(es: seq<Element>): Option<seq<Source>> {
    if es == [] then Some([])
    else if es[0].name != "dim" then Sources(es[1..])
    else
      var first, rest := SourceOf(es[0]), Sources(es[1..]);
      if first.None? || rest.None? then None else Some([first.value] + rest.value)
  }

  /** The variables of the dimensions, if they all come from the given decoder. */
  function Variables(sources: seq<Source>, decoder: string): Option<seq<string>> {
    if sources == [] then Some([])
    else
      var rest := Variables(sources[1..], decoder);
      if sources[0].decoder != decoder || rest.None? then None else Some([sources[0].variable] + rest.value)
  }

  /** The program and the output columns declared for a group. */
  function LookUp(es: seq<Element>, group: nat): Option<(seq<Stmt>, seq<string>)> {
    var channel := FindChannel(es, ToDecimal(group));
    if channel.None? then None
    else
      var sources := Sources(channel.value.children);
      if sources.None? || sources.value == [] then None
      else
        var decoder := FindDecoder(es, sources.value[0].decoder);
        var columns := Variables(sources.value, sources.value[0].decoder);
        if decoder.None? || columns.None? || Program(decoder.value).None? then None
        else Some((Program(decoder.value).value, columns.value))
  }

  /** The samples of all blocks of a group, in order. */
  function RunBlocks(program: seq<Stmt>, columns: seq<string>, blocks: seq<Block>): Option<seq<seq<Value>>> {
    if blocks == [] then Some([])
    else
      var m := RunDecoder(program, blocks[0].payload);
      var rest := RunBlocks(program, columns, blocks[1..]);
      if m.None? || rest.None? || Rows(m.value.samples, columns).None? then None
      else Some(Rows(m.value.samples, columns).value + rest.value)
  }

  // ----- Whole files -----

  /** The payload of the block a file begins with. Its frame is fixed, so that a reader can find the
      stream decoder in it before it has one. */
  function FirstText(file: seq<Byte>): Option<string> {
    if |file| < 20 then None
    else
      var size := BeValue(file[..4]);
      if size < 20 || |file| < size then None else Some(ToText(file[12..size - 8]))
  }

  /** The program of decoder 0 of the file. */
  function StreamProgram(file: seq<Byte>): Option<seq<Stmt>> {
    var text := FirstText(file);
    if text.None? || ReadDocument(text.value).None? then None
    else
      var decoder := FindDecoder(ReadDocument(text.value).value, "0");
      if decoder.None? then None else Program(decoder.value)
  }

  datatype Contents = Contents(blocks: seq<Block>, elements: seq<Element>)

  /** The blocks and the metadata of a file, read with the stream decoder found in it. */
  function ReadFile(file: seq<Byte>): Option<Contents> {
    var stream := StreamProgram(file);
    if stream.None? then None
    else
      var blocks := ReadStream(stream.value, file);
      if blocks.None? || ReadMetadata(blocks.value).None? then None
      else Some(Contents(blocks.value, ReadMetadata(blocks.value).value))
  }

  /** Everything a reader does to get the samples of one group out of a file. */
  function ReadBack(file: seq<Byte>, group: nat): Option<seq<seq<Value>>> {
    var contents := ReadFile(file);
    if contents.None? then None
    else
      var channel := LookUp(contents.value.elements, group);
      if channel.None? then None
      else RunBlocks(channel.value.0, channel.value.1, Select(contents.value.blocks, group))
  }

  // ----- The groups of an input channel -----

  const INPUT_TAG := "somat:input_channel"

  /** The content of the first tag with this id. */
  function TagValue(es: seq<Element>, id: string): Option<string> {
    if es == [] then None
    else if es[0].name == "tag" && AttributeOf(es[0].attributes, "id") == Some(id) then Some(es[0].content)
    else TagValue(es[1..], id)
  }

  function GroupNumber(ch: Element): Option<nat> {
    var text := AttributeOf(ch.attributes, "group");
    if text.None? then None
    else
      var n := ParseNumber(text.value);
      if n.None? || n.value < 0 then None else Some(n.value)
  }

  /** The groups of the channels that carry the input channel tag with this content. */
  function ChannelGroups(es: seq<Element>, input: string): Option<seq<nat>> {
    if es == [] then Some([])
    else if es[0].name != "ch" || TagValue(es[0].children, INPUT_TAG) != Some(input) then ChannelGroups(es[1..], input)
    else
      var first, rest := GroupNumber(es[0]), ChannelGroups(es[1..], input);
      if first.None? || rest.None? then None else Some([first.value] + rest.value)
  }

  function InputGroups(es: seq<Element>, input: string): Option<seq<nat>> {
    if es == [] then Some([])
    else if es[0].name != "test" then InputGroups(es[1..], input)
    else
      var first, rest := ChannelGroups(es[0].children, input), InputGroups(es[1..], input);
      if first.None? || rest.None? then None else Some(first.value + rest.value)
  }

  function ReadGroups(file: seq<Byte>, groups: seq<nat>): Option<seq<seq<Value>>> {
    if groups == [] then Some([])
    else
      var before := ReadGroups(file, groups[..|groups| - 1]);
      var last := ReadBack(file, groups[|groups| - 1]);
      if before.None? || last.None? then None else Some(before.value + last.value)
  }

  /** All samples of an input channel, one group after the other. */
  function ReadInput(file: seq<Byte>, input: string): Option<seq<seq<Value>>> {
    var contents := ReadFile(file);
    if contents.None? then None
    else
      var groups := InputGroups(contents.value.elements, input);
      if groups.None? then None else ReadGroups(file, groups.value)
  }
}
