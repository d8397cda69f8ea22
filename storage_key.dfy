/**
  Storage-key partitioning and URL synthesis of the video upload: the aspect
  class picks a prefix, 32 random bytes are hex-encoded, and the public URL is
  built from bucket, region and key.
 */
module StorageKey {
  import opened Wrappers
  import opened Hex
  import Aspect

  /** Number of random bytes in a key (Go: `make([]byte, 32)`). */
  const KeyByteLength: nat := 32

  /** The bytes `crypto/rand` fills the key buffer with. */
  type RandomKey = s: seq<byte> | |s| == KeyByteLength witness seq(KeyByteLength, _ => 0)

  const KeySuffix: string := ".mp4"

  /** Bucket prefix for an aspect string; anything but "16:9" and "9:16" goes under "other/". */
  function S3Prefix(aspect: string): (prefix: string)
    ensures prefix == "landscape/" <==> aspect == Aspect.Landscape
    ensures prefix == "portrait/" <==> aspect == Aspect.Portrait
    ensures prefix == "other/" <==> aspect != Aspect.Landscape && aspect != Aspect.Portrait
  {
    if aspect == Aspect.Landscape then "landscape/"
    else if aspect == Aspect.Portrait then "portrait/"
    else "other/"
  }

  /** Key = prefix, then the lower-case hex of the random bytes, then ".mp4". */
  function FileS3Key(prefix: string, random: RandomKey): string {
    prefix + EncodeToString(random) + KeySuffix
  }

  /** A key is the prefix, 64 lower-case hex digits, and ".mp4", in that order. */
  lemma FileS3KeyLayout(prefix: string, random: RandomKey)
    ensures |FileS3Key(prefix, random)| == |prefix| + 2 * KeyByteLength + |KeySuffix|
    ensures FileS3Key(prefix, random)[..|prefix|] == prefix
    ensures FileS3Key(prefix, random)[|prefix| + 2 * KeyByteLength..] == KeySuffix
    ensures FileS3Key(prefix, random)[|prefix|..|prefix| + 2 * KeyByteLength] == EncodeToString(random)
    ensures IsLowerHex(FileS3Key(prefix, random)[|prefix|..|prefix| + 2 * KeyByteLength])
  {
    var key := FileS3Key(prefix, random);
    var hex := EncodeToString(random);
    assert key == prefix + hex + KeySuffix;
    assert key[..|prefix|] == prefix;
    assert key[|prefix|..|prefix| + |hex|] == hex;
  }

  /** The middle of a key decodes back to the random bytes it was built from. */
  lemma KeyRecoversRandom(prefix: string, random: RandomKey)
    ensures DecodeString(FileS3Key(prefix, random)[|prefix|..|prefix| + 2 * KeyByteLength]) == Some(random)
  {
    FileS3KeyLayout(prefix, random);
    DecodeEncode(random);
  }

  /**
    Keys of different random bytes differ, whatever the aspect classes: the
    three prefixes start with different letters, and under the same prefix
    the hex parts decode to the bytes.
   */
  lemma KeyInjective(aspect1: string, aspect2: string, random1: RandomKey, random2: RandomKey)
    requires FileS3Key(S3Prefix(aspect1), random1) == FileS3Key(S3Prefix(aspect2), random2)
    ensures S3Prefix(aspect1) == S3Prefix(aspect2) && random1 == random2
  {
    var p1, p2 := S3Prefix(aspect1), S3Prefix(aspect2);
    var key := FileS3Key(p1, random1);
    FileS3KeyLayout(p1, random1);
    FileS3KeyLayout(p2, random2);
    assert key[0] == p1[0] && key[0] == p2[0];
    assert p1 == p2;
    KeyRecoversRandom(p1, random1);
    KeyRecoversRandom(p2, random2);
  }

  /** "https://<bucket>.s3.<region>.amazonaws.com/<key>" */
  function VideoUrl(bucket: string, region: string, key: string): string {
    "https://" + bucket + ".s3." + region + ".amazonaws.com/" + key
  }

  /** The URL is the fixed host part for the bucket and region, followed by the key. */
  lemma VideoUrlLayout(bucket: string, region: string, key: string)
    ensures |VideoUrl(bucket, region, key)| == |bucket| + |region| + |key| + 27
    ensures VideoUrl(bucket, region, key)[|bucket| + |region| + 27..] == key
    ensures VideoUrl(bucket, region, key)[..|bucket| + |region| + 27] == "https://" + bucket + ".s3." + region + ".amazonaws.com/"
  {
    var base := "https://" + bucket + ".s3." + region + ".amazonaws.com/";
    assert VideoUrl(bucket, region, key) == base + key;
  }

  /** For a fixed bucket and region the URL determines the key. */
  lemma UrlDeterminesKey(bucket: string, region: string, key1: string, key2: string)
    requires VideoUrl(bucket, region, key1) == VideoUrl(bucket, region, key2)
    ensures key1 == key2
  {
    VideoUrlLayout(bucket, region, key1);
    VideoUrlLayout(bucket, region, key2);
  }
}
