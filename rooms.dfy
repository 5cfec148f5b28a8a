/**
 * The `Room` record of the watch-party app (backend/watchparty/models.py):
 * the row the registry keeps per room, and the record object whose `save`
 * fills in a missing room code.
 */
module Rooms {

  /** Room codes; the registry is keyed by them (the column is unique). */
  type Code = string

  /** The length limit of the `code` column. */
  const CodeMaxLength: nat := 8

  /** Playback positions are numbers the backend only stores and forwards. */
  type Seconds = real

  /** One registry row: what the consumer reads, updates and deletes. */
  datatype Room = Room(
    code: Code,
    videoUrl: string,
    hostSessionId: string,
    currentTime: Seconds,
    isPlaying: bool)

  predicate IsLowerHexDigit(c: char) {
    '0' <= c <= '9' || 'a' <= c <= 'f'
  }

  predicate IsLowerHex(s: string) {
    forall k :: 0 <= k < |s| ==> IsLowerHexDigit(s[k])
  }

  /**
   * The shape of `uuid.uuid4().hex`: 32 lower-case hex digits, version
   * nibble 4, variant nibble one of 8, 9, a, b. The random UUID itself is a
   * parameter of the model.
   */
  predicate IsUuid4Hex(h: string) {
    |h| == 32 && IsLowerHex(h) && h[12] == '4' && h[16] in {'8', '9', 'a', 'b'}
  }

  /** A code minted from a random UUID: the first 8 characters of its hex form. */
  function MintCode(uuidHex: string): (c: Code)
    requires IsUuid4Hex(uuidHex)
    ensures |c| == CodeMaxLength && IsLowerHex(c)
    ensures c <= uuidHex
  {
    uuidHex[..8]
  }

  /**
   * The code a record carries after `save`: a record with no code (the empty
   * string is falsy) gets a minted one, a record that has a code keeps it.
   */
  function CodeAfterSave(code: Code, uuidHex: string): (c: Code)
    requires IsUuid4Hex(uuidHex)
    ensures code != "" ==> c == code
    ensures code == "" ==> |c| == CodeMaxLength && IsLowerHex(c) && c <= uuidHex
    ensures c != ""
  {
    if code == "" then MintCode(uuidHex) else code
  }

  /** The Django model instance, whose fields `save` may update in place. */
  class RoomRecord {
    var code: Code
    var videoUrl: string
    var hostSessionId: string
    var currentTime: Seconds
    var isPlaying: bool

    /** A new, unsaved room: no code yet, playback at 0.0 and paused. */
    constructor (videoUrl: string, hostSessionId: string)
      ensures this.code == "" && this.videoUrl == videoUrl && this.hostSessionId == hostSessionId
      ensures currentTime == 0.0 && !isPlaying
    {
      this.code := "";
      this.videoUrl := videoUrl;
      this.hostSessionId := hostSessionId;
      currentTime := 0.0;
      isPlaying := false;
    }

    /** The row this record stands for. */
    function Row(): (r: Room)
      reads this
      ensures r.code == code && r.hostSessionId == hostSessionId
    {
      Room(code, videoUrl, hostSessionId, currentTime, isPlaying)
    }

    /**
     * `Room.save`: assigns a code only when none is set, then hands the row
     * to the ORM; the row handed over is returned.
     */
    method Save(uuidHex: string) returns (row: Room)
      requires IsUuid4Hex(uuidHex)
      modifies this`code
      ensures code == CodeAfterSave(old(code), uuidHex)
      ensures row == Row()
    {
      if code == "" {
        code := MintCode(uuidHex);
      }
      row := Row();
    }
  }

  /** Saving a second time never changes the code the first save settled on. */
  lemma SaveSettlesCode(code: Code, first: string, second: string)
    requires IsUuid4Hex(first) && IsUuid4Hex(second)
    ensures CodeAfterSave(CodeAfterSave(code, first), second) == CodeAfterSave(code, first)
  {
  }
}
