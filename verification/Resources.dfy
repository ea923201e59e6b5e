/** The resources the emulator keeps: buckets, object generations, and the media they point to. */
module Resources {

  import opened Bytes
  import opened Checksums

  datatype BucketMeta = BucketMeta(name: string, metageneration: nat, softDelete: bool, attributes: map<string, string>)

  datatype ObjectMeta = ObjectMeta(
    name: string,
    generation: nat,
    metageneration: nat,
    size: nat,
    crc: bv32,
    md5: Md5,
    finalized: bool,
    attributes: map<string, string>)

  /** An object's bytes: a buffer, or the file-backed media with this number. */
  datatype MediaRef = InMemory(bytes: Bytes) | OnDisk(id: nat)

  /** One generation of an object; `upload` says that an appendable upload is attached to it. */
  datatype Blob = Blob(meta: ObjectMeta, media: MediaRef, upload: bool, uploadGen: nat)

  /** The key `name#generation` of the index. */
  datatype Key = Key(name: string, generation: nat)

  function KeyOf(blob: Blob): Key {
    Key(blob.meta.name, blob.meta.generation)
  }

  // ---- The new values of objects ----

  /** `Object.init`: finalized unless an appendable upload comes with it. */
  function NewBlob(key: Key, media: MediaRef, size: nat, crc: bv32, md5: Md5, growing: bool,
                   attributes: map<string, string>): Blob {
    Blob(ObjectMeta(key.name, key.generation, 1, size, crc, md5, !growing, attributes), media, growing,
         if growing then 1 else 0)
  }

  /** A checkpoint of an appendable upload. */
  function Recorded(blob: Blob, media: MediaRef, size: nat, crc: bv32): Blob {
    blob.(media := media, meta := blob.meta.(size := size, crc := crc))
  }

  /** The last checkpoint: the upload ends, and the recorded checksum stays. */
  function Closed(blob: Blob, media: MediaRef, size: nat): Blob {
    blob.(media := media, meta := blob.meta.(size := size, finalized := true), upload := false, uploadGen := 0)
  }

  /** The next write handle is issued. */
  function TakenOver(blob: Blob): Blob {
    blob.(uploadGen := blob.uploadGen + 1)
  }

  /** New values merged into the metadata by an update that raises before it counts a new metageneration. */
  function Merged(blob: Blob, attributes: map<string, string>): Blob {
    blob.(meta := blob.meta.(attributes := attributes))
  }

  function Patched(blob: Blob, attributes: map<string, string>): Blob {
    blob.(meta := blob.meta.(metageneration := blob.meta.metageneration + 1, attributes := attributes))
  }
}
