/** The repository's frozen protocol vectors: which fields each builder writes, in which order, for given inputs. */
module BindingVectors {
  import opened Wrappers
  import opened BindingBytes

  const SUITE := "x25519-hkdf-sha256-chachapoly-v1"
  const HOST := "host_If4x36FUomFia_hUBG_SJxt77UtqvkWqWId-9H-XIbk"
  const WATCH := "watch_Vkdap1RjR0wChd9dvyvKtz2mUTWIOem3dIGy6rEHcIw"
  const HOST_EKEY := "ekey_CYl2qZ_WVBpJ3yUjhyJV39dm_YVsJJTDGInbKOGGz5M"
  const WATCH_EKEY := "ekey_s1AePUnR2isyW7SU0ULj_DCqtX2TXrxTlqjjFjAexIE"
  const LINK := "link_vector_01"
  const SESSION := "session_vector_01"
  const EVENT := "event_vector_01"

  lemma EncryptionBindingVector()
    ensures Fields(EncryptionBinding("host", HOST, "key_If4x36FUomFia_hUBG_SJxt77UtqvkWqWId-9H-XIbk", HOST_EKEY, SUITE,
                                     1, "2026-07-20T00:00:00.000Z", "Gal7qMoataJtQyEIuNwHo5NLutXDKjY_63Tf7ovq7TM"))
            == ["ariava-e2e-binding-v1", "host", HOST, "key_If4x36FUomFia_hUBG_SJxt77UtqvkWqWId-9H-XIbk", HOST_EKEY,
                SUITE, "1", "2026-07-20T00:00:00.000Z", "Gal7qMoataJtQyEIuNwHo5NLutXDKjY_63Tf7ovq7TM"]
  {
  }

  const HOST_DIGEST := "QOTuY3SxZ7_cwL7_quaX6gS-vVP8VMf9ddHlyNV_pfs"
  const WATCH_DIGEST := "gkUa2xsVAI4T8NQn5sjHj5XfxQmt3UBY3h4jNbOCsog"

  lemma LinkVectors()
    ensures Fields(LinkTranscript(LINK, HOST, WATCH, 7, 3, HOST_DIGEST, WATCH_DIGEST, SUITE))
            == ["ariava-e2e-link-transcript-v1", LINK, HOST, WATCH, "7", "3", HOST_DIGEST, WATCH_DIGEST, SUITE]
    ensures Fields(SafetyCode("zyprVdtE0j9h_mmXwXZjpjXyhk1L0Y3dt9haw1tum4w", 7, 3))
            == ["ariava-e2e-safety-code-v1", "zyprVdtE0j9h_mmXwXZjpjXyhk1L0Y3dt9haw1tum4w", "7", "3"]
  {
  }

  lemma EventContentVector()
    ensures Fields(EventContent(HOST, SESSION, "pi", EVENT, NeedHuman, "2026-07-20T00:00:00.000Z",
                                "content_vector_event_01"))
            == ["ariava-event-content-aad-v3", "bridge-to-watch", HOST, SESSION, "pi", EVENT, "need_human",
                "need_human", "2026-07-20T00:00:00.000Z", "content_vector_event_01", "event-content-v3"]
  {
  }

  lemma SessionContentVector()
    ensures Fields(SessionContent(HOST, SESSION, "pi", "need_human", "2026-07-20T00:00:01.000Z", Some(EVENT),
                                  Some("2026-07-20T00:10:00.000Z"), 4, "content_vector_session_01"))
            == ["ariava-session-content-aad-v3", "bridge-to-watch", HOST, SESSION, "pi", "need_human",
                "2026-07-20T00:00:01.000Z", EVENT, "2026-07-20T00:10:00.000Z", "4", "content_vector_session_01",
                "session-content-v3"]
  {
  }

  lemma ReplyContentVector()
    ensures Fields(ReplyContent(HOST, WATCH, SESSION, "command_vector_01", EVENT, "2026-07-20T00:00:02.000Z",
                                "2026-07-20T00:05:02.000Z", "nonce_vector_01", "content_vector_reply_01"))
            == ["ariava-content-aad-v1", "watch-to-bridge", HOST, WATCH, SESSION, "command_vector_01", EVENT,
                "2026-07-20T00:00:02.000Z", "2026-07-20T00:05:02.000Z", "nonce_vector_01", "content_vector_reply_01",
                "reply-content-v1"]
  {
  }

  lemma WrapVectors()
    ensures Fields(WrapAad("bridge-to-watch", LINK, 7, 3, HOST, WATCH, HOST_EKEY, WATCH_EKEY,
                           "content_vector_event_01", "event-content-v3"))
            == ["ariava-wrap-aad-v2", "bridge-to-watch", LINK, "7", "3", HOST, WATCH, HOST_EKEY, WATCH_EKEY,
                "content_vector_event_01", "event-content-v3"]
    ensures Fields(WrapAad("watch-to-bridge", LINK, 7, 3, HOST, WATCH, WATCH_EKEY, HOST_EKEY,
                           "content_vector_reply_01", "reply-content-v1"))
            == ["ariava-wrap-aad-v1", "watch-to-bridge", LINK, "7", "3", HOST, WATCH, WATCH_EKEY, HOST_EKEY,
                "content_vector_reply_01", "reply-content-v1"]
    ensures WrapDomain("interrupt-content-v1") == "ariava-wrap-aad-v1"
    ensures WrapDomain("command-receipt-content-v1") == "ariava-wrap-aad-v2"
  {
  }

  lemma NotificationPreviewVector(watch: string, watchKey: string)
    requires watch == "watch_FnhtTl73RBEvGsRcl33_5U1nzJ3mRe-M_tPep5jwwE4"
    requires watchKey == "ekey_FnhtTl73RBEvGsRcl33_5U1nzJ3mRe-M_tPep5jwwE4"
    ensures Fields(NotificationPreview(HOST, watch, EVENT, SESSION, "need_human", LINK, 7, 3, HOST_EKEY, watchKey,
                                       "content_vector_preview_01"))
            == ["ariava-notification-preview-aad-v2", "bridge-to-watch", HOST, watch, EVENT, SESSION, "need_human",
                LINK, "7", "3", HOST_EKEY, watchKey, "content_vector_preview_01", "notification-preview-v2"]
  {
  }

  // ----- Commands and receipts

  const COMMAND_SESSION := "session_command_vector_01"
  const INTERRUPT := "command_interrupt_vector_01"
  const ISSUED := "2026-08-12T00:00:00.000Z"
  const EXPIRES := "2026-08-12T00:05:00.000Z"
  const COMPLETED := "2026-08-12T00:00:01.000Z"
  const COMMAND_DIGEST := "uOKGPLz1HONDJa-EI2NOInwDoDnWKWNAW-MzCtYF3LE"

  lemma InterruptContentVector()
    ensures Fields(InterruptContent(HOST, WATCH, COMMAND_SESSION, INTERRUPT, ISSUED, EXPIRES, "nonce_command_vector_01",
                                    "content_interrupt_vector_01"))
            == ["ariava-interrupt-content-aad-v1", "watch-to-bridge", HOST, WATCH, COMMAND_SESSION, INTERRUPT,
                "interrupt", ISSUED, EXPIRES, "nonce_command_vector_01", "content_interrupt_vector_01",
                "interrupt-content-v1"]
  {
  }

  lemma ReceiptContentVector()
    ensures Fields(ReceiptContent(HOST, WATCH, COMMAND_SESSION, INTERRUPT, "interrupt", COMMAND_DIGEST, COMPLETED,
                                  "content_receipt_vector_01"))
            == ["ariava-command-receipt-content-aad-v1", "bridge-to-watch", HOST, WATCH, COMMAND_SESSION, INTERRUPT,
                "interrupt", COMMAND_DIGEST, COMPLETED, "content_receipt_vector_01", "command-receipt-content-v1"]
  {
  }

  const COMMAND_CONTENT := Content(1, SUITE, "content_interrupt_vector_01", "interrupt-content-v1", "ISIjJCUmJygpKiss",
                                   "7BxXyTu5PoKKT6pidYrYQJIlIVa_SWadU9v8EP4GoYtCJvhoQ7yVniM-biB_9uF_sLU")

  const COMMAND_WRAP := Wrap(1, SUITE, "content_interrupt_vector_01", LINK, 7, 3, WATCH_EKEY, HOST_EKEY,
                             "LS4vMDEyMzQ1Njc4", "H-h6bLmtGMi2S7oGo6dkbOviFT9xIoG-mIVwY5362mzCC9JeOJwONEFo-e16qDJG")

  lemma CommandEnvelopeVector()
    ensures Fields(CommandEnvelope(HOST, WATCH, COMMAND_SESSION, INTERRUPT, None, ISSUED, EXPIRES,
                                   "nonce_command_vector_01", LINK, 7, 3, COMMAND_CONTENT, COMMAND_WRAP))
            == ["ariava-encrypted-command-binding-v1", HOST, WATCH, COMMAND_SESSION, INTERRUPT, "interrupt", "", ISSUED,
                EXPIRES, "nonce_command_vector_01", LINK, "7", "3",
                "1", SUITE, "content_interrupt_vector_01", "interrupt-content-v1", "ISIjJCUmJygpKiss",
                "7BxXyTu5PoKKT6pidYrYQJIlIVa_SWadU9v8EP4GoYtCJvhoQ7yVniM-biB_9uF_sLU",
                "1", SUITE, "content_interrupt_vector_01", LINK, "7", "3", WATCH_EKEY, HOST_EKEY, "LS4vMDEyMzQ1Njc4",
                "H-h6bLmtGMi2S7oGo6dkbOviFT9xIoG-mIVwY5362mzCC9JeOJwONEFo-e16qDJG"]
  {
  }

  const RECEIPT_CONTENT :=
    Content(1, SUITE, "content_receipt_vector_01", "command-receipt-content-v1", "YWJjZGVmZ2hpamts",
            "pHK1cIiumDp4iRa97rbxTjsshhRwB8wFVV0R3k5hRAPtKNssHGy-gMAwaHrOmj5nvc4lyPLSSQzDUZwLV9rA23ljyZ6lApiwywFiZ6LQxK"
            + "uIUaWLNtnS5yyfPv-Fit7Jk0zvhllP4QbTKqyRX6jk-9EADKO_cpDe_uW-NjtfjqQky1JYCJFhKsGHO5UKN0pI")

  const RECEIPT_WRAP := Wrap(1, SUITE, "content_receipt_vector_01", LINK, 7, 3, HOST_EKEY, WATCH_EKEY,
                             "bW5vcHFyc3R1dnd4", "_dCt6s2yjV56TF2QL9EqC9un57MVjp3bap3NSeEGKNwiqzEYJC03rulyvj26LKH-")

  lemma ReceiptEnvelopeVector()
    ensures Fields(ReceiptEnvelope(1, HOST, WATCH, COMMAND_SESSION, INTERRUPT, "interrupt", COMMAND_DIGEST, COMPLETED,
                                   LINK, 7, 3, RECEIPT_CONTENT, RECEIPT_WRAP))
            == ["ariava-command-receipt-binding-v1", "1", HOST, WATCH, COMMAND_SESSION, INTERRUPT, "interrupt",
                COMMAND_DIGEST, COMPLETED, LINK, "7", "3",
                "1", SUITE, "content_receipt_vector_01", "command-receipt-content-v1", "YWJjZGVmZ2hpamts",
                RECEIPT_CONTENT.ciphertext,
                "1", SUITE, "content_receipt_vector_01", LINK, "7", "3", HOST_EKEY, WATCH_EKEY, "bW5vcHFyc3R1dnd4",
                "_dCt6s2yjV56TF2QL9EqC9un57MVjp3bap3NSeEGKNwiqzEYJC03rulyvj26LKH-"]
  {
  }
}
