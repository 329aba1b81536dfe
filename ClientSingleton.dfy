/** newservice/newservice/supabase_client.py: the guarded client factory and
    the lazily created module-wide client handle. */
module ClientSingleton {
  import opened Wrappers

  const MISSING_SETTINGS := "SUPABASE_URL e SUPABASE_KEY devem estar configurados no arquivo .env"

  /** The handle `create_client(url, key)` returns. */
  datatype Client = Client(url: string, key: string)

  /** `get_supabase_client()`, given settings.SUPABASE_URL and SUPABASE_KEY. */
  function GetSupabaseClient(url: Option<string>, key: Option<string>): (r: Result<Client, string>)
    ensures r.Failure? <==> url.None? || url.value == "" || key.None? || key.value == ""
    ensures r.Failure? ==> r.error == MISSING_SETTINGS
    ensures r.Success? ==> r.value == Client(url.value, key.value)
  {
    if url.None? || url.value == "" || key.None? || key.value == "" then Failure(MISSING_SETTINGS)
    else Success(Client(url.value, key.value))
  }

  /** The module holding the global `supabase` (None until first use);
      `created` counts the clients it has created. */
  class ClientModule {
    var supabase: Option<Client>
    var created: nat

    constructor ()
      ensures supabase == None && created == 0
    {
      supabase := None;
      created := 0;
    }

    /** `get_or_create_supabase_client()` */
    method GetOrCreate(url: Option<string>, key: Option<string>) returns (r: Result<Client, string>)
      modifies this
      ensures old(supabase).Some? ==>
        r == Success(old(supabase).value) && supabase == old(supabase) && created == old(created)
      ensures old(supabase).None? ==> r == GetSupabaseClient(url, key)
      ensures old(supabase).None? && r.Success? ==> created == old(created) + 1
      ensures old(supabase).None? && r.Failure? ==> supabase == None && created == old(created)
      ensures r.Success? ==> supabase == Some(r.value)
    {
      if supabase.None? {
        var c := GetSupabaseClient(url, key);
        if c.Failure? {
          return c;
        }
        supabase := Some(c.value);
        created := created + 1;
      }
      r := Success(supabase.value);
    }

    /** Calling twice yields one handle, created at most once. */
    method GetOrCreateTwice(url: Option<string>, key: Option<string>) returns (first: Result<Client, string>, second: Result<Client, string>)
      modifies this
      ensures first.Success? ==> second == first
      ensures created <= old(created) + 1
    {
      first := GetOrCreate(url, key);
      second := GetOrCreate(url, key);
    }
  }
}
