/** The repository's frozen vectors of its codecs, and the alphabets they write in. */
module CodecVectors {
  import opened Wrappers
  import Unicode
  import FieldEncoding
  import Base64Url
  import RequestSigning
  import SerializedBlocks
  import opened ReceiptPadding

  /** The base64url alphabet (RFC 4648, section 5). */
  lemma AlphabetIs()
    ensures Base64Url.Letters([0, 1, 2, 3, 4, 5, 6, 7, 8, 9, 10, 11, 12,
                               13, 14, 15, 16, 17, 18, 19, 20, 21, 22, 23, 24, 25])
            == "ABCDEFGHIJKLMNOPQRSTUVWXYZ"
    ensures Base64Url.Letters([26, 27, 28, 29, 30, 31, 32, 33, 34, 35, 36, 37, 38,
                               39, 40, 41, 42, 43, 44, 45, 46, 47, 48, 49, 50, 51])
            == "abcdefghijklmnopqrstuvwxyz"
    ensures Base64Url.Letters([52, 53, 54, 55, 56, 57, 58, 59, 60, 61, 62, 63]) == "0123456789-_"
  {
  }

  lemma Utf8Vectors()
    ensures Unicode.Utf8Char('f') == [0x66]
    ensures Unicode.Utf8Char('\U{E9}') == [0xC3, 0xA9]
    ensures Unicode.Utf8Char('\U{7EE7}') == [0xE7, 0xBB, 0xA7]
    ensures Unicode.Utf8Char('\U{1F600}') == [0xF0, 0x9F, 0x98, 0x80]
  {
  }

  lemma FieldVectors()
    ensures FieldEncoding.Chunk("pi") == [0x32, 0x3A, 0x70, 0x69, 0x0A]
    ensures FieldEncoding.Chunk("") == [0x30, 0x3A, 0x0A]
  {
  }

  const HOST := "host_If4x36FUomFia_hUBG_SJxt77UtqvkWqWId-9H-XIbk"
  const KEY := "key_If4x36FUomFia_hUBG_SJxt77UtqvkWqWId-9H-XIbk"
  const EMPTY_SHA256 := "47DEQpj8HBSa-_TImW-5JCeuQeRkm5NMpJWZG3hSuFU"
  const TIMESTAMP := "2026-07-15T12:34:56.789Z"
  const NONCE := "AAECAwQFBgcICQoLDA0ODw"

  lemma SignedFieldsVector()
    ensures RequestSigning.SignedFields(
              RequestSigning.Request("host", HOST, KEY, "POST", "/v2/bridge/enroll", "mode=first&platform=macos",
                                     EMPTY_SHA256, TIMESTAMP, NONCE))
            == ["ariava-request-v1", "host", HOST, KEY, "POST", "/v2/bridge/enroll", "mode=first&platform=macos",
                EMPTY_SHA256, TIMESTAMP, NONCE]
    ensures RequestSigning.Join(["POST", "", "a"], '\n') == "POST\n\na"
  {
  }

  /** Query names and values are of the base64url alphabet and the tilde. */
  lemma DynamicIs(c: char)
    ensures RequestSigning.Dynamic(c) <==> Base64Url.ValueOf(c).Some? || c == '~'
  {
  }

  /** Pairs are sorted by the codes of their names' characters. */
  lemma OrderVector()
    ensures RequestSigning.Sorted([RequestSigning.Pair("platform", "macos"), RequestSigning.Pair("mode", "first")])
            == [RequestSigning.Pair("mode", "first"), RequestSigning.Pair("platform", "macos")]
  {
    assert RequestSigning.Before("mode", "platform") && !RequestSigning.Before("platform", "mode");
  }

  lemma QueryVector()
    ensures RequestSigning.QueryText([RequestSigning.Pair("mode", "first"), RequestSigning.Pair("platform", "macos")])
            == "mode" + "=" + "first" + "&" + ("platform" + "=" + "macos")
  {
  }

  lemma ReceiptVectors()
    ensures ReceiptText(Receipt(true, Executed))
            == "{\"version\":1,\"accepted\":" + "true" + ",\"status\":\"" + "executed" + "\"" + "}"
    ensures ReceiptText(Receipt(false, Expired))
            == "{\"version\":1,\"accepted\":" + "false" + ",\"status\":\"" + "expired" + "\"" + "}"
    ensures ReceiptText(Receipt(false, Rejected))
            == "{\"version\":1,\"accepted\":" + "false" + ",\"status\":\"" + "rejected" + "\"" + "}"
    ensures ReceiptText(Receipt(false, Failed))
            == "{\"version\":1,\"accepted\":" + "false" + ",\"status\":\"" + "failed" + "\"" + "}"
  {
  }

  /** Both brackets nest, and both quotes hide brackets. */
  lemma BlockVectors()
    ensures SerializedBlocks.BlockEnd("{[]}x", 0) == 4
    ensures SerializedBlocks.BlockEnd("[']']x", 0) == 5
    ensures SerializedBlocks.BlockEnd("{\"}\"}x", 0) == 5
  {
  }
}
