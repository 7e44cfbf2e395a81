/**
 * The global configuration: which file processor and which file manager a
 * new database uses, and its page size. The source keeps these in static
 * fields; here one `ZooConfig` object holds them.
 */
module Config {

  /** A Java `int`. */
  type Int32 = x: int | -0x8000_0000 <= x < 0x8000_0000

  const MODEL_1P: Int32 := 1
  const MODEL_2P: Int32 := 2
  const MODEL: Int32 := MODEL_1P

  const PRE_SERVER: string := "org.zoodb.jdo.internal.server."
  const PRE_JDO: string := "org.zoodb.jdo."

  const FILE_PAF_BB: string := PRE_SERVER + "PageAccessFile_BB"
  const FILE_PAF_BB_MAPPED_PAGE: string := PRE_SERVER + "PageAccessFile_BBMappedPage"
  const FILE_PAF_MAPPED_BB: string := PRE_SERVER + "PageAccessFile_MappedBB"
  const FILE_PAF_IN_MEMORY: string := PRE_SERVER + "PageAccessFileInMemory"

  const FILE_MGR_IN_MEMORY: string := PRE_JDO + "api.impl.DataStoreManagerInMemory"
  const FILE_MGR_ONE_FILE: string := PRE_JDO + "api.impl.DataStoreManagerOneFile"

  /** The default page size, in bytes. */
  const FILE_PAGE_SIZE_DEFAULT: Int32 := 1024 * 4

  class ZooConfig {
    var fileDefault: string
    var fileManagerDefault: string
    var defaultPageSize: Int32

    /** The configuration is at its defaults: one-file manager, buffered file processor, 4096-byte pages. */
    predicate AtDefaults()
      reads this
    {
      fileDefault == FILE_PAF_BB && fileManagerDefault == FILE_MGR_ONE_FILE &&
      defaultPageSize == FILE_PAGE_SIZE_DEFAULT
    }

    /** The initial values of the static fields. */
    constructor ()
      ensures AtDefaults()
      ensures defaultPageSize == 4096
    {
      fileDefault := FILE_PAF_BB;
      fileManagerDefault := FILE_MGR_ONE_FILE;
      defaultPageSize := FILE_PAGE_SIZE_DEFAULT;
    }

    method SetDefaults()
      modifies this
      ensures AtDefaults()
    {
      fileDefault := FILE_PAF_BB;
      fileManagerDefault := FILE_MGR_ONE_FILE;
      defaultPageSize := FILE_PAGE_SIZE_DEFAULT;
    }

    /**
     * Select the file manager; the two known managers also select their
     * file processor, any other name keeps the current processor.
     */
    method SetFileManager(className: string)
      modifies this
      ensures fileManagerDefault == className && defaultPageSize == old(defaultPageSize)
      ensures className == FILE_MGR_ONE_FILE ==> fileDefault == FILE_PAF_BB
      ensures className == FILE_MGR_IN_MEMORY ==> fileDefault == FILE_PAF_IN_MEMORY
      ensures className != FILE_MGR_ONE_FILE && className != FILE_MGR_IN_MEMORY ==>
                fileDefault == old(fileDefault)
    {
      fileManagerDefault := className;
      if className == FILE_MGR_ONE_FILE {
        fileDefault := FILE_PAF_BB;
      } else if className == FILE_MGR_IN_MEMORY {
        fileDefault := FILE_PAF_IN_MEMORY;
      }
    }

    method GetFileProcessor() returns (r: string)
      ensures r == fileDefault
    {
      r := fileDefault;
    }

    method GetFileManager() returns (r: string)
      ensures r == fileManagerDefault
    {
      r := fileManagerDefault;
    }

    method GetFilePageSize() returns (r: Int32)
      ensures r == defaultPageSize
    {
      r := defaultPageSize;
    }

    /** Any page size is accepted as it is. */
    method SetFilePageSize(pageSize: Int32)
      modifies this`defaultPageSize
      ensures defaultPageSize == pageSize
    {
      defaultPageSize := pageSize;
    }
  }

  /** The two known file managers are different names, so each selects its own processor. */
  lemma KnownManagersDiffer()
    ensures FILE_MGR_ONE_FILE != FILE_MGR_IN_MEMORY
    ensures FILE_PAF_BB != FILE_PAF_IN_MEMORY
  {
    assert FILE_MGR_ONE_FILE[|PRE_JDO| + 25] != FILE_MGR_IN_MEMORY[|PRE_JDO| + 25];
    assert FILE_PAF_BB[|PRE_SERVER| + 14] != FILE_PAF_IN_MEMORY[|PRE_SERVER| + 14];
  }
}
