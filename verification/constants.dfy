/** The integration's constants: packet sizes, ports and default light values. */
module Constants {
  import opened Common

  const Domain: string := "ihomma_sml"

  /** The total byte sums a packet may add up to, scanned in this order. */
  const PacketSizes: seq<int> := [752, 1008, 1009, 1010, 1266, 1522, 5677]

  const TcpPort: int := 8080
  const UdpBroadcastIp: string := "255.255.255.255"
  const UdpPort: int := 988
  const UdpTimeout: int := 1

  const BaseBrightness: int := 255
  const BaseColorK: int := 4000
  const BaseColorRgb: Rgb := Rgb(Tuple, 255, 255, 255)
  const TempColorMaxK: int := 6500
  const TempColorMinK: int := 2700

  predicate StrictlyAscending(s: seq<int>) {
    forall i, j :: 0 <= i < j < |s| ==> s[i] < s[j]
  }

  /** The forge's scan relies on the allow-list being strictly ascending. */
  lemma PacketSizesAscending()
    ensures StrictlyAscending(PacketSizes)
  {
  }

  /** The gaps between consecutive allowed sizes. */
  lemma PacketSizeGaps()
    ensures |PacketSizes| == 7
    ensures forall i :: 0 <= i < 6 ==> PacketSizes[i + 1] - PacketSizes[i] == [256, 1, 1, 256, 256, 4155][i]
  {
  }

  /** The Kelvin range is non-empty and every default lies inside its range. */
  lemma DefaultsInRange()
    ensures TempColorMinK < TempColorMaxK
    ensures 0 <= BaseBrightness <= 255
    ensures TempColorMinK <= BaseColorK <= TempColorMaxK
    ensures 0 <= BaseColorRgb.r <= 255 && 0 <= BaseColorRgb.g <= 255 && 0 <= BaseColorRgb.b <= 255
  {
  }
}
